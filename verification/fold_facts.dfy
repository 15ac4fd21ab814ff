/** Properties of the scan fold that hold whatever each file yields: where
    it stops, which progress lines it prints, that it only ever appends, and
    that its counters and records are the sums and concatenations of the
    per-file contributions. */
module FoldFacts {
  import opened Options
  import opened Records
  import opened Scan

  /** The sum of per-file counter increments. */
  function Total(es: seq<FileEntry>, delta: FileEntry -> Feedback): Feedback
    decreases |es|
  {
    if es == [] then NoChange
    else Plus(Total(es[..|es| - 1], delta), delta(es[|es| - 1]))
  }

  /** The concatenation of per-file lists (names, records), in order. */
  function Concat<T>(es: seq<FileEntry>, parts: FileEntry -> seq<T>): seq<T>
    decreases |es|
  {
    if es == [] then []
    else Concat(es[..|es| - 1], parts) + parts(es[|es| - 1])
  }

  /** The names of a record list, in order. */
  function Filenames(records: seq<Record>): (names: seq<string>)
    ensures |names| == |records|
    ensures forall k :: 0 <= k < |records| ==> names[k] == records[k].filename
  {
    seq(|records|, k requires 0 <= k < |records| => records[k].filename)
  }

  /** How many progress lines a scan of `n` files prints: the first file,
      then every hundredth. */
  function ProgressCount(n: nat): nat
  {
    if n == 0 then 0 else n / 100 + 1
  }

  /** The position of the `k`-th progress line. */
  function ProgressIndex(k: nat): nat
  {
    if k == 0 then 1 else 100 * k
  }

  /** Progress positions stay within the files scanned so far. */
  lemma ProgressIndexBound(k: nat, n: nat)
    requires k < ProgressCount(n)
    ensures 1 <= ProgressIndex(k) <= n
  {
  }

  /** The `n`-th file adds a progress line exactly when it fires, and that
      line comes next in the sequence of positions. */
  lemma ProgressCountStep(n: nat)
    requires n >= 1
    ensures Fires(n) ==> ProgressCount(n) == ProgressCount(n - 1) + 1 && ProgressIndex(ProgressCount(n - 1)) == n
    ensures !Fires(n) ==> ProgressCount(n) == ProgressCount(n - 1)
  {
  }

  /** The progress lines a scan of `es` should print. */
  function ProgressLines(es: seq<FileEntry>, total: nat): (lines: seq<Progress>)
    ensures |lines| == ProgressCount(|es|)
  {
    seq(ProgressCount(|es|), k requires 0 <= k < ProgressCount(|es|) =>
      ProgressIndexBound(k, |es|);
      Progress(ProgressIndex(k), total, PathOf(es[ProgressIndex(k) - 1])))
  }

  /** A finished scan of a non-empty sequence is a finished scan of all but
      the last entry, followed by that entry's contribution. */
  lemma FoldLast(es: seq<FileEntry>, total: nat, process: Processor)
    requires es != [] && ScanWith(es, total, process).Ok?
    ensures ScanWith(es[..|es| - 1], total, process).Ok?
    ensures process(es[|es| - 1]).Ok?
    ensures var st := ScanWith(es[..|es| - 1], total, process).value;
            var b := process(es[|es| - 1]).value;
            && ScanWith(es, total, process).value.records == st.records + ToSeq(b.record)
            && ScanWith(es, total, process).value.feedback == Plus(st.feedback, b.delta)
            && ScanWith(es, total, process).value.progress
               == if Fires(|es|) then st.progress + [Progress(|es|, total, PathOf(es[|es| - 1]))] else st.progress
  {
  }

  /** A scan of a non-empty sequence raises exactly when the scan of all but
      the last entry raises, keeping that abort, or when it finishes and the
      last entry raises. */
  lemma FoldLastErr(es: seq<FileEntry>, total: nat, process: Processor)
    requires es != []
    ensures var before := ScanWith(es[..|es| - 1], total, process);
            && (ScanWith(es, total, process).Err? <==> before.Err? || process(es[|es| - 1]).Err?)
            && (before.Err? ==> ScanWith(es, total, process) == before)
            && (before.Ok? && process(es[|es| - 1]).Err? ==>
                  ScanWith(es, total, process).error == Abort(|es|, PathOf(es[|es| - 1]), process(es[|es| - 1]).error))
  {
  }

  /** The fold raises exactly when some file does, and then it stops at the
      first such file, reporting its position, its path and its fault. */
  lemma {:induction false} FoldAborts(es: seq<FileEntry>, total: nat, process: Processor)
    ensures ScanWith(es, total, process).Err? <==> exists i :: 0 <= i < |es| && process(es[i]).Err?
    ensures ScanWith(es, total, process).Err? ==>
              exists i :: && 0 <= i < |es| && process(es[i]).Err?
                          && (forall j :: 0 <= j < i ==> process(es[j]).Ok?)
                          && ScanWith(es, total, process).error == Abort(i + 1, PathOf(es[i]), process(es[i]).error)
    decreases |es|
  {
    if es != [] {
      var init := es[..|es| - 1];
      FoldAborts(init, total, process);
      FoldLastErr(es, total, process);
      assert forall j :: 0 <= j < |init| ==> es[j] == init[j];
      if ScanWith(init, total, process).Err? {
        var i :| && 0 <= i < |init| && process(init[i]).Err?
                 && (forall j :: 0 <= j < i ==> process(init[j]).Ok?)
                 && ScanWith(init, total, process).error == Abort(i + 1, PathOf(init[i]), process(init[i]).error);
        assert es[i] == init[i];
      } else if process(es[|es| - 1]).Err? {
        assert forall j :: 0 <= j < |es| - 1 ==> process(es[j]).Ok?;
      }
    }
  }

  /** A file that leaves no record and adds nothing to the counters changes
      neither whether the fold finishes nor its records and counters. */
  lemma FoldQuietStep(es: seq<FileEntry>, e: FileEntry, total: nat, process: Processor)
    requires process(e) == Ok(Built(None, NoChange))
    ensures ScanWith(es + [e], total, process).Ok? <==> ScanWith(es, total, process).Ok?
    ensures ScanWith(es, total, process).Ok? ==>
              && ScanWith(es + [e], total, process).value.records == ScanWith(es, total, process).value.records
              && ScanWith(es + [e], total, process).value.feedback == ScanWith(es, total, process).value.feedback
  {
    var all := es + [e];
    assert all[..|all| - 1] == es;
    assert all[|all| - 1] == e;
    if ScanWith(es, total, process).Ok? {
      var st := ScanWith(es, total, process).value;
      assert st.records + ToSeq(None) == st.records;
    }
  }

  /** One more file extends the expected progress lines by its own line
      exactly when it fires. */
  lemma ProgressLinesStep(es: seq<FileEntry>, total: nat)
    requires es != []
    ensures ProgressLines(es, total)
            == if Fires(|es|) then ProgressLines(es[..|es| - 1], total) + [Progress(|es|, total, PathOf(es[|es| - 1]))]
               else ProgressLines(es[..|es| - 1], total)
  {
    var n := |es|;
    var init := es[..n - 1];
    var before := ProgressLines(init, total);
    var after := ProgressLines(es, total);
    ProgressCountStep(n);
    forall k | 0 <= k < |before|
      ensures after[k] == before[k]
    {
      ProgressIndexBound(k, n - 1);
      assert init[ProgressIndex(k) - 1] == es[ProgressIndex(k) - 1];
    }
  }

  /** A finished fold prints exactly the lines for positions 1, 100, 200, …,
      each with the total and the path of the file at that position. */
  lemma {:induction false} FoldProgress(es: seq<FileEntry>, total: nat, process: Processor)
    requires ScanWith(es, total, process).Ok?
    ensures ScanWith(es, total, process).value.progress == ProgressLines(es, total)
    decreases |es|
  {
    if es != [] {
      FoldLast(es, total, process);
      FoldProgress(es[..|es| - 1], total, process);
      ProgressLinesStep(es, total);
    }
  }

  /** The fold of a prefix is a prefix of the fold: records and progress
      lines come out in enumeration order and are never rewritten. */
  lemma {:induction false} FoldPrefix(es: seq<FileEntry>, n: nat, total: nat, process: Processor)
    requires n <= |es| && ScanWith(es, total, process).Ok?
    ensures ScanWith(es[..n], total, process).Ok?
    ensures ScanWith(es[..n], total, process).value.records <= ScanWith(es, total, process).value.records
    ensures ScanWith(es[..n], total, process).value.progress <= ScanWith(es, total, process).value.progress
    decreases |es|
  {
    if n < |es| {
      var init := es[..|es| - 1];
      FoldLast(es, total, process);
      FoldPrefix(init, n, total, process);
      assert init[..n] == es[..n];
    } else {
      assert es[..n] == es;
    }
  }

  /** When every file's increments are given by `delta`, a finished fold
      reports the total plus their sum. */
  lemma {:induction false} FoldCounters(es: seq<FileEntry>, total: nat, process: Processor, delta: FileEntry -> Feedback)
    requires forall i :: 0 <= i < |es| && process(es[i]).Ok? ==> process(es[i]).value.delta == delta(es[i])
    requires ScanWith(es, total, process).Ok?
    ensures ScanWith(es, total, process).value.feedback == Plus(Feedback(total, 0, 0, 0, 0, 0), Total(es, delta))
    decreases |es|
  {
    if es != [] {
      var init := es[..|es| - 1];
      FoldLast(es, total, process);
      assert forall i :: 0 <= i < |init| ==> init[i] == es[i];
      FoldCounters(init, total, process, delta);
    }
  }

  /** When every file's record names are given by `names`, a finished fold's
      record names are their concatenation. */
  lemma {:induction false} FoldNames(es: seq<FileEntry>, total: nat, process: Processor, names: FileEntry -> seq<string>)
    requires forall i :: 0 <= i < |es| && process(es[i]).Ok? ==> Filenames(ToSeq(process(es[i]).value.record)) == names(es[i])
    requires ScanWith(es, total, process).Ok?
    ensures Filenames(ScanWith(es, total, process).value.records) == Concat(es, names)
    decreases |es|
  {
    if es != [] {
      var init := es[..|es| - 1];
      FoldLast(es, total, process);
      assert forall i :: 0 <= i < |init| ==> init[i] == es[i];
      FoldNames(init, total, process, names);
      var before := ScanWith(init, total, process).value.records;
      var added := ToSeq(process(es[|es| - 1]).value.record);
      assert Filenames(before + added) == Filenames(before) + Filenames(added);
    }
  }

  /** When every file's records are given by `recs`, a finished fold's
      records are their concatenation, in enumeration order. */
  lemma {:induction false} FoldRecords(es: seq<FileEntry>, total: nat, process: Processor, recs: FileEntry -> seq<Record>)
    requires forall i :: 0 <= i < |es| && process(es[i]).Ok? ==> ToSeq(process(es[i]).value.record) == recs(es[i])
    requires ScanWith(es, total, process).Ok?
    ensures ScanWith(es, total, process).value.records == Concat(es, recs)
    decreases |es|
  {
    if es != [] {
      var init := es[..|es| - 1];
      FoldLast(es, total, process);
      assert forall i :: 0 <= i < |init| ==> init[i] == es[i];
      FoldRecords(init, total, process, recs);
    }
  }

  /** When every record a file can leave satisfies `good`, so does every
      record of a finished fold. */
  lemma {:induction false} FoldRecordsAll(es: seq<FileEntry>, total: nat, process: Processor, good: Record -> bool)
    requires forall i :: 0 <= i < |es| && process(es[i]).Ok? && process(es[i]).value.record.Some?
                         ==> good(process(es[i]).value.record.value)
    requires ScanWith(es, total, process).Ok?
    ensures forall r <- ScanWith(es, total, process).value.records :: good(r)
    decreases |es|
  {
    if es != [] {
      var init := es[..|es| - 1];
      FoldLast(es, total, process);
      assert forall i :: 0 <= i < |init| ==> init[i] == es[i];
      FoldRecordsAll(init, total, process, good);
    }
  }
}
