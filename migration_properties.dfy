/**
 * What a run promises, proved about the functions of MigrationSpec: which files
 * are pending, the order they run in, where a stop target or a failure ends the
 * run, what is recorded, and the stages observers see.
 */
module MigrationProperties {
  import opened Wrappers
  import opened MigrationEvents
  import opened Paths
  import opened Parameters
  import opened MigrationSpec

  /** How many scripts of `c`, from the first, run without failing. */
  function Succeeding(c: seq<string>, fails: Oracle): (k: nat)
    ensures k <= |c|
    ensures forall i :: 0 <= i < k ==> fails(c[i]).None?
    ensures k < |c| ==> fails(c[k]).Some?
  {
    if c == [] || fails(c[0]).Some? then 0 else 1 + Succeeding(c[1..], fails)
  }

  /** The log rows recording `files`, one after the other. */
  function LogRecords(files: seq<string>, logParameters: ParameterMap): (r: seq<LogRecord>)
  {
    if files == [] then [] else [LogRecordFor(FileName(files[0]), logParameters)] + LogRecords(files[1..], logParameters)
  }

  /** The scripts `files` taking effect, one after the other, each with its parameters bound. */
  function Applications(files: seq<string>, parameters: ParameterMap): (r: seq<Application>)
  {
    if files == [] then [] else [Application(files[0], Bindings(parameters, FileName(files[0])))] + Applications(files[1..], parameters)
  }

  /** The notification observers get when `script` fails with `e` in stage `stage`. */
  function FailureEvent(stage: Stage, script: string, e: ScriptError): MigrationEvent
  {
    var migration := FileNameWithoutExtension(script);
    MigrationEvent(stage, Some(migration), ErrorMessage(migration), Some(ScriptFailure(e)))
  }

  /** How the candidates of a non-empty listing start: its first file when pending, then the rest unless the target was hit. */
  lemma CandidatesCons(files: seq<string>, executed: seq<string>, target: Option<string>)
    requires files != []
    ensures Candidates(files, executed, target) ==
      (if IsPending(files[0], executed) then [files[0]] else [])
      + (if target == Some(FileName(files[0])) then [] else Candidates(files[1..], executed, target))
  {
    var up := UpTo(files, target);
    assert up[0] == files[0];
    if target == Some(FileName(files[0])) {
      assert up == [files[0]];
      assert up[1..] == [];
    } else {
      assert up[1..] == UpTo(files[1..], target);
    }
  }

  /**
   * One turn of the foreach loop for a pending first file: it runs, a failure ends
   * the loop, and otherwise the loop stops at `target` or goes on with the rest.
   */
  lemma RunAllPendingCons(w: World, files: seq<string>, executed: seq<string>, target: Option<string>,
                          s: Settings, fails: Oracle, pending: nat, count: nat)
    requires files != [] && IsPending(files[0], executed)
    ensures
      var o := RunPending(w, files[0], s, fails, pending, count);
      RunAll(w, Candidates(files, executed, target), s, fails, pending, count) ==
        if o.error.Some? then o
        else if target == Some(FileName(files[0])) then Outcome(o.world, Option.None)
        else RunAll(o.world, Candidates(files[1..], executed, target), s, fails, pending, count + 1)
  {
    CandidatesCons(files, executed, target);
    var c := Candidates(files, executed, target);
    assert c[0] == files[0];
    assert c[1..] == if target == Some(FileName(files[0])) then [] else Candidates(files[1..], executed, target);
  }

  /** One turn of the foreach loop for an executed first file: the loop stops at `target` or goes on with the rest. */
  lemma RunAllSkippedCons(w: World, files: seq<string>, executed: seq<string>, target: Option<string>,
                          s: Settings, fails: Oracle, pending: nat, count: nat)
    requires files != [] && !IsPending(files[0], executed)
    ensures
      RunAll(w, Candidates(files, executed, target), s, fails, pending, count) ==
        if target == Some(FileName(files[0])) then Outcome(w, Option.None)
        else RunAll(w, Candidates(files[1..], executed, target), s, fails, pending, count)
  {
    CandidatesCons(files, executed, target);
    assert Candidates(files, executed, target) == if target == Some(FileName(files[0])) then [] else Candidates(files[1..], executed, target);
  }

  /** The successful prefix of a candidate list that starts with `f`. */
  lemma SucceedingCons(f: string, c: seq<string>, fails: Oracle)
    ensures Succeeding([f] + c, fails) == if fails(f).Some? then 0 else 1 + Succeeding(c, fails)
  {
    assert ([f] + c)[1..] == c;
  }

  /** The announcement notification for the `count + 1`-th of `pending` scripts. */
  function Announcement(stage: Stage, file: string, pending: nat, count: nat): MigrationEvent
  {
    MigrationEvent(stage, Some(FileName(file)), StartingMessage(count + 1, pending, FileName(file)), Option.None)
  }

  /** The notification that `file` ran successfully. */
  function SuccessEvent(stage: Stage, file: string): MigrationEvent
  {
    var migration := FileNameWithoutExtension(file);
    MigrationEvent(stage, Some(migration), ExecutedMessage(migration), Option.None)
  }

  /**
   * The notification of a script that ran carries no exception; that of a script
   * that threw carries its exception and, in Migrating, is the failure notification
   * for the script's extension-less name.
   */
  lemma OutcomeNotifications(stage: Stage, file: string, e: ScriptError)
    ensures IsSuccessEvent(SuccessEvent(stage, file))
    ensures !IsSuccessEvent(FailureEvent(stage, file, e))
    ensures IsFailureEvent(FailureEvent(stage, file, e), FileNameWithoutExtension(file)) <==> stage == Migrating
  {
  }

  /**
   * Running one pending file: two notifications in the current stage (announcement,
   * then success or failure); on success the script takes effect and is then
   * recorded, on failure neither happens and its exception is the result.
   */
  lemma RunPendingEffects(w: World, file: string, s: Settings, fails: Oracle, pending: nat, count: nat)
    ensures
      var o := RunPending(w, file, s, fails, pending, count);
      && o.world.stage == w.stage
      && (o.error.Some? <==> fails(file).Some?)
      && (fails(file).Some? ==>
            && o.error == Some(ScriptFailure(fails(file).value))
            && o.world.events == w.events + [Announcement(w.stage, file, pending, count), FailureEvent(w.stage, file, fails(file).value)]
            && o.world.log == w.log
            && o.world.applied == w.applied)
      && (fails(file).None? ==>
            && o.world.events == w.events + [Announcement(w.stage, file, pending, count), SuccessEvent(w.stage, file)]
            && o.world.log == w.log + [LogRecordFor(FileName(file), s.scriptLogParameters)]
            && o.world.applied == w.applied + [Application(file, Bindings(s.scriptParameters, FileName(file)))])
  {
  }

  /** Running one pending file keeps the stage and throws exactly the exception of a failing script. */
  lemma RunPendingError(w: World, file: string, s: Settings, fails: Oracle, pending: nat, count: nat)
    ensures
      var o := RunPending(w, file, s, fails, pending, count);
      && o.world.stage == w.stage
      && o.error == (if fails(file).Some? then Some(ScriptFailure(fails(file).value)) else Option.None)
  {
  }

  /** Running one pending file adds its announcement and then its success or failure notification. */
  lemma RunPendingEvents(w: World, file: string, s: Settings, fails: Oracle, pending: nat, count: nat)
    ensures
      var o := RunPending(w, file, s, fails, pending, count);
      && o.world.stage == w.stage
      && (o.error.None? <==> fails(file).None?)
      && o.world.events == w.events + [Announcement(w.stage, file, pending, count),
           if fails(file).Some? then FailureEvent(w.stage, file, fails(file).value) else SuccessEvent(w.stage, file)]
  {
  }

  /**
   * The loop keeps the stage it runs in, and throws exactly when a candidate fails,
   * with that candidate's exception.
   */
  lemma {:induction false} RunAllError(w: World, c: seq<string>, s: Settings, fails: Oracle, pending: nat, count: nat)
    ensures
      var o := RunAll(w, c, s, fails, pending, count);
      var k := Succeeding(c, fails);
      && o.world.stage == w.stage
      && (o.error.Some? <==> k < |c|)
      && (k < |c| ==> o.error == Some(ScriptFailure(fails(c[k]).value)))
    decreases |c|
  {
    if c != [] {
      RunPendingError(w, c[0], s, fails, pending, count);
      var r := RunPending(w, c[0], s, fails, pending, count);
      if r.error.None? {
        RunAllError(r.world, c[1..], s, fails, pending, count + 1);
      }
    }
  }

  /**
   * The loop records exactly the candidates before the first one that fails, in
   * candidate order, each under its file name with the log parameters for it.
   */
  lemma {:induction false} RunAllLog(w: World, c: seq<string>, s: Settings, fails: Oracle, pending: nat, count: nat)
    ensures RunAll(w, c, s, fails, pending, count).world.log == w.log + LogRecords(c[..Succeeding(c, fails)], s.scriptLogParameters)
    decreases |c|
  {
    if c != [] {
      var r := RunPending(w, c[0], s, fails, pending, count);
      RunPendingLog(w, c[0], s, fails, pending, count);
      if r.error.None? {
        RunAllLog(r.world, c[1..], s, fails, pending, count + 1);
        LogRecordsCons(c, Succeeding(c[1..], fails), s.scriptLogParameters);
      }
    }
  }

  /** Running one pending file records it exactly when it does not fail. */
  lemma RunPendingLog(w: World, file: string, s: Settings, fails: Oracle, pending: nat, count: nat)
    ensures
      var o := RunPending(w, file, s, fails, pending, count);
      && (o.error.None? <==> fails(file).None?)
      && o.world.log == w.log + (if fails(file).None? then [LogRecordFor(FileName(file), s.scriptLogParameters)] else [])
  {
  }

  /** The log rows of a non-empty prefix: its first file's, then those of the rest. */
  lemma LogRecordsCons(c: seq<string>, k: nat, logParameters: ParameterMap)
    requires k < |c|
    ensures LogRecords(c[..1 + k], logParameters) == [LogRecordFor(FileName(c[0]), logParameters)] + LogRecords(c[1..][..k], logParameters)
  {
    assert c[..1 + k][1..] == c[1..][..k];
  }

  /**
   * The loop applies exactly the candidates before the first one that fails, in
   * candidate order, each with the script parameters resolved for its file name;
   * the failing script is rolled back and nothing after it runs.
   */
  lemma {:induction false} RunAllApplied(w: World, c: seq<string>, s: Settings, fails: Oracle, pending: nat, count: nat)
    ensures RunAll(w, c, s, fails, pending, count).world.applied == w.applied + Applications(c[..Succeeding(c, fails)], s.scriptParameters)
    decreases |c|
  {
    if c != [] {
      var r := RunPending(w, c[0], s, fails, pending, count);
      RunPendingApplied(w, c[0], s, fails, pending, count);
      if r.error.None? {
        RunAllApplied(r.world, c[1..], s, fails, pending, count + 1);
        ApplicationsCons(c, Succeeding(c[1..], fails), s.scriptParameters);
      }
    }
  }

  /** Running one pending file applies it exactly when it does not fail. */
  lemma RunPendingApplied(w: World, file: string, s: Settings, fails: Oracle, pending: nat, count: nat)
    ensures
      var o := RunPending(w, file, s, fails, pending, count);
      && (o.error.None? <==> fails(file).None?)
      && o.world.applied == w.applied + (if fails(file).None? then [Application(file, Bindings(s.scriptParameters, FileName(file)))] else [])
  {
  }

  /** The applications of a non-empty prefix: its first file's, then those of the rest. */
  lemma ApplicationsCons(c: seq<string>, k: nat, parameters: ParameterMap)
    requires k < |c|
    ensures Applications(c[..1 + k], parameters) == [Application(c[0], Bindings(parameters, FileName(c[0])))] + Applications(c[1..][..k], parameters)
  {
    assert c[..1 + k][1..] == c[1..][..k];
  }

  /** Every notification of `events` carries `stage`. */
  predicate AllInStage(events: seq<MigrationEvent>, stage: Stage)
  {
    forall i :: 0 <= i < |events| ==> events[i].currentStage == stage
  }

  /**
   * Each script the loop runs adds two notifications (announcement, then outcome);
   * earlier notifications are kept.
   */
  lemma {:induction false} RunAllEvents(w: World, c: seq<string>, s: Settings, fails: Oracle, pending: nat, count: nat)
    ensures
      var o := RunAll(w, c, s, fails, pending, count);
      var k := Succeeding(c, fails);
      && w.events <= o.world.events
      && |o.world.events| == |w.events| + 2 * k + (if k < |c| then 2 else 0)
    decreases |c|
  {
    if c != [] {
      RunPendingEvents(w, c[0], s, fails, pending, count);
      var r := RunPending(w, c[0], s, fails, pending, count);
      if r.error.None? {
        RunAllEvents(r.world, c[1..], s, fails, pending, count + 1);
      }
    }
  }

  /** Every notification the loop adds is in the loop's stage. */
  lemma {:induction false} RunAllStages(w: World, c: seq<string>, s: Settings, fails: Oracle, pending: nat, count: nat)
    ensures
      var o := RunAll(w, c, s, fails, pending, count);
      w.events <= o.world.events && AllInStage(o.world.events[|w.events|..], w.stage)
    decreases |c|
  {
    if c != [] {
      RunPendingEvents(w, c[0], s, fails, pending, count);
      var r := RunPending(w, c[0], s, fails, pending, count);
      if r.error.None? {
        RunAllStages(r.world, c[1..], s, fails, pending, count + 1);
        var o := RunAll(r.world, c[1..], s, fails, pending, count + 1);
        assert RunAll(w, c, s, fails, pending, count) == o;
        assert AllInStage(r.world.events[|w.events|..], w.stage) by {
          assert r.world.events[|w.events|..] == [r.world.events[|w.events|], r.world.events[|w.events| + 1]];
        }
        SuffixInStage(w.events, r.world.events, o.world.events, w.stage);
      }
    }
  }

  /** Notifications added in two rounds, each all in `stage`, are all in `stage`. */
  lemma SuffixInStage(a: seq<MigrationEvent>, b: seq<MigrationEvent>, c: seq<MigrationEvent>, stage: Stage)
    requires a <= b <= c
    requires AllInStage(b[|a|..], stage) && AllInStage(c[|b|..], stage)
    ensures AllInStage(c[|a|..], stage)
  {
    forall i | 0 <= i < |c| - |a| ensures c[|a|..][i].currentStage == stage {
      if |a| + i < |b| {
        assert c[|a|..][i] == b[|a|..][i];
      } else {
        assert c[|a|..][i] == c[|b|..][|a| + i - |b|];
      }
    }
  }

  /** When a candidate fails, the loop's last notification is that candidate's failure notification. */
  lemma {:induction false} RunAllFailureNotice(w: World, c: seq<string>, s: Settings, fails: Oracle, pending: nat, count: nat)
    ensures
      var o := RunAll(w, c, s, fails, pending, count);
      var k := Succeeding(c, fails);
      k < |c| ==> |o.world.events| > 0 && o.world.events[|o.world.events| - 1] == FailureEvent(w.stage, c[k], fails(c[k]).value)
    decreases |c|
  {
    if c != [] {
      RunPendingEvents(w, c[0], s, fails, pending, count);
      var r := RunPending(w, c[0], s, fails, pending, count);
      if r.error.None? {
        RunAllFailureNotice(r.world, c[1..], s, fails, pending, count + 1);
        assert RunAll(w, c, s, fails, pending, count) == RunAll(r.world, c[1..], s, fails, pending, count + 1);
        assert Succeeding(c, fails) == 1 + Succeeding(c[1..], fails);
      }
    }
  }
}
