/**
 * Running Synchronize again (DatabaseMigration.cs:257-274): a successful run with
 * no stop target leaves every discovered file recorded, so a second run over the
 * same folder records nothing, and a second run over the folder with files added
 * records one row for each added file, under that file's name.
 */
module RerunProperties {
  import opened Wrappers
  import opened Paths
  import opened Ordering
  import opened Parameters
  import opened MigrationSpec
  import opened MigrationProperties
  import opened RunProperties
  import opened SynchronizeProperties

  /**
   * A successful run with no stop target visits the whole sorted listing: the
   * candidates are exactly its pending files, and all of them are applied and
   * recorded.
   */
  lemma NoTargetRun(w: World, s: Settings, host: Host, listing: seq<string>, o: Outcome)
    requires host.listSql(ScriptsFolder(s.databaseScripts, host)) == Some(listing)
    requires o == Synchronized(w, Option.None, s, host) && o.error.None?
    ensures
      var files, executed := Sort(listing), ExecutedNames(w.log);
      var c := Candidates(files, executed, Option.None);
      && (forall f :: f in c <==> f in files && IsPending(f, executed))
      && o.world.log == w.log + LogRecords(c, s.scriptLogParameters)
      && o.world.applied == w.applied + [InitApplication(s, host)] + Applications(c, s.scriptParameters)
  {
    SuccessfulRunListed(w, Option.None, s, host, o);
    var files, executed := Sort(listing), ExecutedNames(w.log);
    var c := Candidates(files, executed, Option.None);
    SynchronizeRun(w, Option.None, s, host, listing);
    UpToStops(files, Option.None);
    WholePrefix(c, Succeeding(c, host.fails));
  }

  /** A prefix as long as the sequence is the sequence. */
  lemma WholePrefix(c: seq<string>, k: nat)
    requires k == |c|
    ensures c[..k] == c
  {
  }

  /** A successful run with no stop target adds one log row per pending file of the listing. */
  lemma RunRecordsPending(w: World, s: Settings, host: Host, listing: seq<string>, o: Outcome)
    requires host.listSql(ScriptsFolder(s.databaseScripts, host)) == Some(listing)
    requires o == Synchronized(w, Option.None, s, host) && o.error.None?
    ensures |o.world.log| == |w.log| + PendingCount(listing, ExecutedNames(w.log))
  {
    NoTargetRun(w, s, host, listing, o);
    var files, executed := Sort(listing), ExecutedNames(w.log);
    var c := Candidates(files, executed, Option.None);
    LogRecordsSpec(c, s.scriptLogParameters);
    UpToStops(files, Option.None);
    PendingCountIsPending(files, executed);
    PendingCountPermutation(files, listing, executed);
  }

  /** Appending the rows of the pending files of a listing leaves every file of the listing named in the log. */
  lemma NamesCover(log: seq<LogRecord>, listing: seq<string>, c: seq<string>, logParameters: ParameterMap)
    requires forall f :: f in c <==> f in Sort(listing) && IsPending(f, ExecutedNames(log))
    ensures forall f :: f in listing ==> FileName(f) in ExecutedNames(log + LogRecords(c, logParameters))
  {
    var executed := ExecutedNames(log);
    var added := ExecutedNames(LogRecords(c, logParameters));
    ExecutedNamesAppend(log, LogRecords(c, logParameters));
    forall f | f in listing ensures FileName(f) in executed + added {
      assert f in Sort(listing) by {
        assert f in multiset(listing);
        assert f in multiset(Sort(listing));
      }
      if FileName(f) !in executed {
        NameOfCandidate(c, logParameters, f);
      }
    }
  }

  /** The rows recording `c` name every file of `c`. */
  lemma NameOfCandidate(c: seq<string>, logParameters: ParameterMap, f: string)
    requires f in c
    ensures FileName(f) in ExecutedNames(LogRecords(c, logParameters))
  {
    LogRecordsNames(c, logParameters);
    var i :| 0 <= i < |c| && c[i] == f;
    assert ExecutedNames(LogRecords(c, logParameters))[i] == FileName(f);
  }

  /** A listing none of whose files is pending has no candidates. */
  lemma NothingPending(listing: seq<string>, c: seq<string>, executed: seq<string>)
    requires forall f :: f in listing ==> FileName(f) in executed
    requires forall f :: f in c ==> f in Sort(listing) && IsPending(f, executed)
    ensures c == []
  {
    if c != [] {
      ListedIsExecuted(listing, c[0], executed);
      assert false;
    }
  }

  /** A file of the sorted listing has its name among the executed names when every listed file does. */
  lemma ListedIsExecuted(listing: seq<string>, f: string, executed: seq<string>)
    requires forall f :: f in listing ==> FileName(f) in executed
    requires f in Sort(listing)
    ensures FileName(f) in executed
  {
    assert f in multiset(Sort(listing));
    assert f in listing by { assert f in multiset(listing); }
  }

  /** After a successful run with no stop target, the name of every discovered file is in the log. */
  lemma RunRecordsEveryFile(w: World, s: Settings, host: Host, listing: seq<string>, o: Outcome)
    requires host.listSql(ScriptsFolder(s.databaseScripts, host)) == Some(listing)
    requires o == Synchronized(w, Option.None, s, host) && o.error.None?
    ensures forall f :: f in listing ==> FileName(f) in ExecutedNames(o.world.log)
  {
    NoTargetRun(w, s, host, listing, o);
    NamesCover(w.log, listing, Candidates(Sort(listing), ExecutedNames(w.log), Option.None), s.scriptLogParameters);
  }

  /**
   * Idempotence: after a successful run with no stop target, running again over
   * the same folder succeeds, records nothing and runs no migration; only the
   * initialization script runs again.
   */
  lemma RerunRecordsNothing(w: World, s: Settings, host: Host, o: Outcome)
    requires o == Synchronized(w, Option.None, s, host) && o.error.None?
    ensures
      var again := Synchronized(o.world, Option.None, s, host);
      && again.error.None?
      && again.world.log == o.world.log
      && again.world.applied == o.world.applied + [InitApplication(s, host)]
  {
    SuccessfulRunListed(w, Option.None, s, host, o);
    var listing := host.listSql(ScriptsFolder(s.databaseScripts, host)).value;
    RunRecordsEveryFile(w, s, host, listing, o);
    var files, executed := Sort(listing), ExecutedNames(o.world.log);
    var c := Candidates(files, executed, Option.None);
    SynchronizeRun(o.world, Option.None, s, host, listing);
    UpToStops(files, Option.None);
    NothingPending(listing, c, executed);
    assert c[..0] == [];
    assert LogRecords(c[..0], s.scriptLogParameters) == [];
    assert Applications(c[..0], s.scriptParameters) == [];
  }

  /**
   * A second run after a successful run with no stop target, by any engine over the
   * same database (`w2` shares its log: a new engine in stage None with no
   * notifications, or the first one again), with its own settings and folder: when
   * the second folder holds files named like files of the first one (`kept`) plus
   * files whose names are new to the log (`extra`), and the second run succeeds, it
   * records exactly one row per added file. Whether a file is pending depends only
   * on its name, not on its folder.
   */
  lemma RerunRecordsNewFiles(w: World, s: Settings, host: Host, listing: seq<string>, o: Outcome,
                             w2: World, s2: Settings, host2: Host, listing2: seq<string>,
                             kept: seq<string>, extra: seq<string>, again: Outcome)
    requires host.listSql(ScriptsFolder(s.databaseScripts, host)) == Some(listing)
    requires o == Synchronized(w, Option.None, s, host) && o.error.None?
    requires host2.listSql(ScriptsFolder(s2.databaseScripts, host2)) == Some(listing2)
    requires multiset(listing2) == multiset(kept) + multiset(extra)
    requires forall f :: f in kept ==> exists g :: g in listing && FileName(g) == FileName(f)
    requires forall f :: f in extra ==> FileName(f) !in ExecutedNames(o.world.log)
    requires w2.log == o.world.log
    requires again == Synchronized(w2, Option.None, s2, host2) && again.error.None?
    ensures |again.world.log| == |w2.log| + |extra|
    ensures again.world.log[..|w2.log|] == w2.log
    ensures forall i :: |w2.log| <= i < |again.world.log| ==> NamesAddedFile(again.world.log[i], extra)
  {
    RunRecordsEveryFile(w, s, host, listing, o);
    var executed := ExecutedNames(o.world.log);
    KeptNamesExecuted(listing, kept, executed);
    RunRecordsPending(w2, s2, host2, listing2, again);
    SecondRunRowsNameAdded(w2, s2, host2, listing2, kept, extra, again);
    assert multiset(listing2) == multiset(kept + extra);
    PendingCountPermutation(listing2, kept + extra, executed);
    PendingCountAppend(kept, extra, executed);
    PendingCountExtremes(kept, executed);
    PendingCountExtremes(extra, executed);
  }

  /**
   * A successful run with no stop target over a listing made of `kept` and `extra`,
   * none of `kept` pending, keeps the old rows and adds rows naming files of `extra`.
   */
  lemma SecondRunRowsNameAdded(w2: World, s2: Settings, host2: Host, listing2: seq<string>,
                               kept: seq<string>, extra: seq<string>, again: Outcome)
    requires host2.listSql(ScriptsFolder(s2.databaseScripts, host2)) == Some(listing2)
    requires again == Synchronized(w2, Option.None, s2, host2) && again.error.None?
    requires multiset(listing2) == multiset(kept) + multiset(extra)
    requires forall f :: f in kept ==> !IsPending(f, ExecutedNames(w2.log))
    ensures |w2.log| <= |again.world.log| && again.world.log[..|w2.log|] == w2.log
    ensures forall i :: |w2.log| <= i < |again.world.log| ==> NamesAddedFile(again.world.log[i], extra)
  {
    NoTargetRun(w2, s2, host2, listing2, again);
    var executed := ExecutedNames(w2.log);
    var c := Candidates(Sort(listing2), executed, Option.None);
    var rows := LogRecords(c, s2.scriptLogParameters);
    LogRecordsNames(c, s2.scriptLogParameters);
    forall j | 0 <= j < |rows| ensures NamesAddedFile(rows[j], extra) {
      assert ExecutedNames(rows)[j] == FileName(c[j]);
      PendingIsAdded(c[j], listing2, kept, extra, executed);
    }
    AppendedRows(w2.log, rows, extra);
  }

  /** The row's name is the name of one of `files`. */
  predicate NamesAddedFile(row: LogRecord, files: seq<string>)
  {
    exists f :: f in files && row.scriptName == FileName(f)
  }

  /** A pending file of a listing made of `kept` and `extra`, none of `kept` pending, is one of `extra`. */
  lemma PendingIsAdded(f: string, listing2: seq<string>, kept: seq<string>, extra: seq<string>, executed: seq<string>)
    requires f in Sort(listing2) && IsPending(f, executed)
    requires multiset(listing2) == multiset(kept) + multiset(extra)
    requires forall g :: g in kept ==> !IsPending(g, executed)
    ensures f in extra
  {
    assert f in multiset(Sort(listing2));
    assert f in multiset(listing2);
    assert f !in kept;
    assert f in multiset(extra);
  }

  /** Rows appended to a log leave the old rows in front, and the appended ones still name files of `extra`. */
  lemma AppendedRows(log: seq<LogRecord>, rows: seq<LogRecord>, extra: seq<string>)
    requires forall j :: 0 <= j < |rows| ==> NamesAddedFile(rows[j], extra)
    ensures (log + rows)[..|log|] == log
    ensures forall i :: |log| <= i < |log + rows| ==> NamesAddedFile((log + rows)[i], extra)
  {
    forall i | |log| <= i < |log + rows| ensures NamesAddedFile((log + rows)[i], extra) {
      assert (log + rows)[i] == rows[i - |log|];
    }
    assert (log + rows)[..|log|] == log;
  }

  /** Files named like files whose names are all executed are not pending. */
  lemma KeptNamesExecuted(listing: seq<string>, kept: seq<string>, executed: seq<string>)
    requires forall g :: g in listing ==> FileName(g) in executed
    requires forall f :: f in kept ==> exists g :: g in listing && FileName(g) == FileName(f)
    ensures forall f :: f in kept ==> !IsPending(f, executed)
  {
    forall f | f in kept ensures !IsPending(f, executed) {
      var g :| g in listing && FileName(g) == FileName(f);
    }
  }
}
