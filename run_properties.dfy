/**
 * Properties of the pieces a run is made of: which discovered files are pending,
 * where a stop target cuts the listing, what the bound parameters are, and what
 * the log and the applied scripts grow by.
 */
module RunProperties {
  import opened Wrappers
  import opened MigrationEvents
  import opened Paths
  import opened Ordering
  import opened Parameters
  import opened MigrationSpec
  import opened MigrationProperties

  /** The pending count reported to observers is the number of pending files. */
  lemma {:induction false} PendingCountIsPending(files: seq<string>, executed: seq<string>)
    ensures PendingCount(files, executed) == |PendingFiles(files, executed)|
    decreases |files|
  {
    if files != [] {
      PendingCountIsPending(files[1..], executed);
    }
  }

  /** A file is kept exactly when it is discovered and its file name is not among the executed names. */
  lemma {:induction false} PendingFilesMembers(files: seq<string>, executed: seq<string>)
    ensures forall f :: f in PendingFiles(files, executed) <==> f in files && IsPending(f, executed)
    decreases |files|
  {
    if files != [] {
      PendingFilesMembers(files[1..], executed);
      assert files == [files[0]] + files[1..];
    }
  }

  /** Filtering keeps the sorted order of the listing. */
  lemma {:induction false} PendingFilesSorted(files: seq<string>, executed: seq<string>)
    requires Sorted(files)
    ensures Sorted(PendingFiles(files, executed))
    decreases |files|
  {
    if files != [] {
      SortedTail(files);
      PendingFilesSorted(files[1..], executed);
      if IsPending(files[0], executed) {
        var rest := PendingFiles(files[1..], executed);
        PendingFilesMembers(files[1..], executed);
        forall j | 0 <= j < |rest| ensures LessEq(files[0], rest[j]) {
          assert rest[j] in files[1..];
          var i :| 0 <= i < |files[1..]| && files[1..][i] == rest[j];
          assert files[1 + i] == rest[j];
        }
        SortedCons(files[0], rest);
      }
    }
  }

  /**
   * The files the loop visits end at the first one named `target`: no earlier file
   * has that name, the cut happens only at such a file, and without a target
   * nothing is cut.
   */
  lemma {:induction false} UpToStops(files: seq<string>, target: Option<string>)
    ensures var u := UpTo(files, target);
      && (forall i :: 0 <= i < |u| - 1 ==> target != Some(FileName(u[i])))
      && (|u| < |files| ==> u != [] && target == Some(FileName(u[|u| - 1])))
      && (target.None? ==> u == files)
    decreases |files|
  {
    if files != [] && target != Some(FileName(files[0])) {
      UpToStops(files[1..], target);
      var u := UpTo(files, target);
      assert u[1..] == UpTo(files[1..], target);
      assert files == [files[0]] + files[1..];
    }
  }

  /**
   * The scripts the loop sets out to run are exactly the pending files up to the
   * stop target, in sorted order; later files are never candidates.
   */
  lemma CandidatesSpec(files: seq<string>, executed: seq<string>, target: Option<string>)
    requires Sorted(files)
    ensures var c, u := Candidates(files, executed, target), UpTo(files, target);
      && (forall f :: f in c <==> f in u && IsPending(f, executed))
      && Sorted(c)
      && |c| <= PendingCount(files, executed)
  {
    var u := UpTo(files, target);
    PendingFilesMembers(u, executed);
    assert Sorted(u) by {
      forall i, j | 0 <= i < j < |u| ensures LessEq(u[i], u[j]) {
        assert u[i] == files[i] && u[j] == files[j];
      }
    }
    PendingFilesSorted(u, executed);
    PendingCountIsPending(files, executed);
    PendingCountPrefix(u, files, executed);
    PendingCountIsPending(u, executed);
  }

  /** A prefix of a listing has at most as many pending files as the listing. */
  lemma {:induction false} PendingCountPrefix(u: seq<string>, files: seq<string>, executed: seq<string>)
    requires u <= files
    ensures PendingCount(u, executed) <= PendingCount(files, executed)
    decreases |u|
  {
    if u != [] {
      assert u[1..] <= files[1..];
      PendingCountPrefix(u[1..], files[1..], executed);
    }
  }

  /** PendingCount over two listings one after the other. */
  lemma {:induction false} PendingCountAppend(a: seq<string>, b: seq<string>, executed: seq<string>)
    ensures PendingCount(a + b, executed) == PendingCount(a, executed) + PendingCount(b, executed)
    decreases |a|
  {
    if a == [] {
      assert a + b == b;
    } else {
      assert (a + b)[0] == a[0];
      assert (a + b)[1..] == a[1..] + b;
      PendingCountAppend(a[1..], b, executed);
    }
  }

  /** The pending count depends only on which files there are, not on their order. */
  lemma {:induction false} PendingCountPermutation(a: seq<string>, b: seq<string>, executed: seq<string>)
    requires multiset(a) == multiset(b)
    ensures PendingCount(a, executed) == PendingCount(b, executed)
    decreases |a|
  {
    if a != [] {
      assert a[0] in multiset(b);
      var j :| 0 <= j < |b| && b[j] == a[0];
      var rest := b[..j] + b[j + 1..];
      assert b == b[..j] + ([b[j]] + b[j + 1..]);
      RemoveMatching(a, b, j);
      PendingCountPermutation(a[1..], rest, executed);
      PendingCountAppend(b[..j], [b[j]] + b[j + 1..], executed);
      PendingCountAppend([b[j]], b[j + 1..], executed);
      PendingCountAppend(b[..j], b[j + 1..], executed);
      assert ([b[j]] + b[j + 1..])[1..] == b[j + 1..];
    }
  }

  /** Taking the first element of `a` and the same element of `b` out leaves equal multisets. */
  lemma RemoveMatching(a: seq<string>, b: seq<string>, j: nat)
    requires multiset(a) == multiset(b) && a != [] && j < |b| && b[j] == a[0]
    ensures multiset(a[1..]) == multiset(b[..j] + b[j + 1..])
  {
    var pre, post := b[..j], b[j + 1..];
    assert a == [a[0]] + a[1..];
    assert b == pre + [b[j]] + post;
    assert multiset(a) == multiset(a[1..]) + multiset{a[0]};
    assert multiset(b) == multiset(pre) + multiset{b[j]} + multiset(post);
    assert multiset(pre + post) == multiset(pre) + multiset(post);
    assert multiset(a[1..]) + multiset{a[0]} == multiset(pre + post) + multiset{a[0]};
    forall x ensures multiset(a[1..])[x] == multiset(pre + post)[x] {
      assert (multiset(a[1..]) + multiset{a[0]})[x] == (multiset(pre + post) + multiset{a[0]})[x];
    }
  }

  /** No file of a listing is pending: the count is 0; every file is pending: the count is its length. */
  lemma {:induction false} PendingCountExtremes(files: seq<string>, executed: seq<string>)
    ensures (forall f :: f in files ==> !IsPending(f, executed)) ==> PendingCount(files, executed) == 0
    ensures (forall f :: f in files ==> IsPending(f, executed)) ==> PendingCount(files, executed) == |files|
    decreases |files|
  {
    if files != [] {
      assert files == [files[0]] + files[1..];
      PendingCountExtremes(files[1..], executed);
    }
  }

  /**
   * The parameters bound for a script: one per key, in the order the keys were
   * added, each with its own name and type and with the value its resolver gives
   * for (script name, its own key).
   */
  lemma {:induction false} BindAllResolves(m: ParameterMap, keys: seq<string>, scriptName: string)
    requires forall k :: k in keys ==> k in m.entries
    requires forall k :: k in m.entries ==> m.entries[k].name == k
    ensures |BindAll(m, keys, scriptName)| == |keys|
    ensures forall i :: 0 <= i < |keys| ==>
      BindAll(m, keys, scriptName)[i] == Binding(keys[i], m.entries[keys[i]].databaseType, m.entries[keys[i]].valueFactory(scriptName, keys[i]))
    decreases |keys|
  {
    if keys != [] {
      var init := keys[..|keys| - 1];
      assert forall k :: k in init ==> k in keys;
      BindAllResolves(m, init, scriptName);
    }
  }

  /** Every parameter of a well-formed collection is bound, in order, resolved with the script name and its own name. */
  lemma BindingsResolveWithScriptName(m: ParameterMap, scriptName: string)
    requires m.Valid()
    ensures |Bindings(m, scriptName)| == |m.order| == |m.entries|
    ensures forall i :: 0 <= i < |m.order| ==>
      var p := m.entries[m.order[i]];
      Bindings(m, scriptName)[i] == Binding(p.name, p.databaseType, p.Value(scriptName)) && p.name == m.order[i]
  {
    BindAllResolves(m, m.order, scriptName);
    DistinctKeysCount(m);
  }

  /**
   * The row recorded for a script: under its file name, with @name bound first to
   * that file name as a string, then every log parameter, in the order added,
   * resolved with the same file name.
   */
  lemma LogRecordResolvesWithFileName(fileName: string, logParameters: ParameterMap)
    requires logParameters.Valid()
    ensures
      var r := LogRecordFor(fileName, logParameters);
      && r.scriptName == fileName
      && |r.bindings| == 1 + |logParameters.order|
      && r.bindings[0] == Binding("name", StringType, Text(fileName))
      && forall i :: 0 <= i < |logParameters.order| ==>
           var p := logParameters.entries[logParameters.order[i]];
           r.bindings[1 + i] == Binding(p.name, p.databaseType, p.Value(fileName))
  {
    BindingsResolveWithScriptName(logParameters, fileName);
  }

  /** In a well-formed collection the key order lists each of the dictionary's keys once. */
  lemma DistinctKeysCount(m: ParameterMap)
    requires m.Valid()
    ensures |m.order| == |m.entries|
  {
    var keys := set i | 0 <= i < |m.order| :: m.order[i];
    assert keys == m.entries.Keys;
    DistinctCardinality(m.order);
  }

  /** A sequence without repetitions has as many distinct elements as it is long. */
  lemma {:induction false} DistinctCardinality(s: seq<string>)
    requires forall i, j :: 0 <= i < j < |s| ==> s[i] != s[j]
    ensures |set i | 0 <= i < |s| :: s[i]| == |s|
    decreases |s|
  {
    if s != [] {
      var init := s[..|s| - 1];
      DistinctCardinality(init);
      var a := set i | 0 <= i < |init| :: init[i];
      var b := set i | 0 <= i < |s| :: s[i];
      assert b == a + {s[|s| - 1]};
      assert s[|s| - 1] !in a;
    }
  }

  /** The names read back from a log made of two parts, one after the other. */
  lemma {:induction false} ExecutedNamesAppend(a: seq<LogRecord>, b: seq<LogRecord>)
    ensures ExecutedNames(a + b) == ExecutedNames(a) + ExecutedNames(b)
  {
    var l, r := ExecutedNames(a + b), ExecutedNames(a) + ExecutedNames(b);
    assert |l| == |r|;
    forall i | 0 <= i < |l| ensures l[i] == r[i] {
      if i < |a| { assert (a + b)[i] == a[i]; } else { assert (a + b)[i] == b[i - |a|]; }
    }
  }

  /** One log row per file, in order, each the row RecordMigrationExecuted inserts for the file's name. */
  lemma {:induction false} LogRecordsSpec(files: seq<string>, logParameters: ParameterMap)
    ensures |LogRecords(files, logParameters)| == |files|
    ensures forall i :: 0 <= i < |files| ==> LogRecords(files, logParameters)[i] == LogRecordFor(FileName(files[i]), logParameters)
    decreases |files|
  {
    if files != [] {
      LogRecordsSpec(files[1..], logParameters);
    }
  }

  /** The names read back from the rows recording `files` are the files' names, in order. */
  lemma LogRecordsNames(files: seq<string>, logParameters: ParameterMap)
    ensures |ExecutedNames(LogRecords(files, logParameters))| == |files|
    ensures forall i :: 0 <= i < |files| ==> ExecutedNames(LogRecords(files, logParameters))[i] == FileName(files[i])
  {
    LogRecordsSpec(files, logParameters);
  }

  /** One application per file, in order, each with the parameters resolved for the file's name. */
  lemma {:induction false} ApplicationsSpec(files: seq<string>, parameters: ParameterMap)
    ensures |Applications(files, parameters)| == |files|
    ensures forall i :: 0 <= i < |files| ==> Applications(files, parameters)[i] == Application(files[i], Bindings(parameters, FileName(files[i])))
    decreases |files|
  {
    if files != [] {
      ApplicationsSpec(files[1..], parameters);
    }
  }
}
