/** One run of the script: scan the tree, write the records, print the
    summary, then add the run's counters to the history. The clock is a
    parameter (the run's start time, already rendered as a key), and file
    writes are the outcome's fields. */
module Pipeline {
  import opened Records
  import opened Scan
  import opened ScanFacts
  import opened History

  /** The counter summary printed at the end; the two differences are
      unbounded integers, as in the original. */
  datatype Summary = Summary(total: int, processed: int, withoutExif: int, withoutGps: int, failed: int)

  /** The printed summary: the files without tags and without coordinates
      are what remains of the processed files once those with tags, resp.
      coordinates, are taken away. */
  function SummaryOf(f: Feedback): (r: Summary)
    ensures r.total == f.total && r.processed == f.processed && r.failed == f.failed
    ensures r.withoutExif + f.hasExif == f.processed && r.withoutGps + f.hasGps == f.processed
    ensures f.hasGps <= f.hasExif <= f.processed ==> 0 <= r.withoutExif <= r.withoutGps <= r.processed
  {
    Summary(f.total, f.processed, f.processed - f.hasExif, f.processed - f.hasGps, f.failed)
  }

  /** How a run ends: the scan raised and nothing was written; the records
      were written but updating the history raised; or both files were
      written. */
  datatype Outcome =
    | ScanAborted(abort: Abort)
    | HistoryFailed(metadata: seq<Record>, summary: Summary, fault: HistoryFault)
    | Finished(metadata: seq<Record>, summary: Summary, history: Runs)

  function RunPipeline(entries: seq<FileEntry>, known: map<int, string>, history: HistoryFile, startKey: string): (o: Outcome)
    ensures o.ScanAborted? <==> ScanTree(entries, known).Err?
    ensures !o.ScanAborted? ==> o.metadata == ScanTree(entries, known).value.records
    ensures o.HistoryFailed? <==> ScanTree(entries, known).Ok? && (history.Missing? || history.OtherJson?)
    ensures o.Finished? ==> startKey in o.history && o.history[startKey] == Counters(ScanTree(entries, known).value.feedback)
  {
    match ScanTree(entries, known)
    case Err(a) => ScanAborted(a)
    case Ok(st) =>
      var summary := SummaryOf(st.feedback);
      match MergeHistory(history, startKey, st.feedback)
      case Err(f) => HistoryFailed(st.records, summary, f)
      case Ok(runs) => Finished(st.records, summary, runs)
  }

  /** The printed differences of a finished run are never negative: files
      without tags are the processed files that did not count as having
      tags, and they are the records left without coordinates. */
  lemma SummaryOfFinishedRun(entries: seq<FileEntry>, known: map<int, string>, history: HistoryFile, startKey: string)
    requires !RunPipeline(entries, known, history, startKey).ScanAborted?
    ensures var o := RunPipeline(entries, known, history, startKey);
            && o.summary.total == |entries| && o.summary.failed == 0
            && 0 <= o.summary.withoutExif <= o.summary.withoutGps <= o.summary.processed
            && o.summary.withoutExif == |o.metadata| - ScanTree(entries, known).value.feedback.hasGps
  {
    CounterBounds(entries, known);
  }
}
