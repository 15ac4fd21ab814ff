/** The directory scan as a fold over the enumerated files, in enumeration
    order: the record list, the run counters and the progress lines. The
    enumeration itself (a recursive directory walk) is given as a sequence of
    entries, each carrying what the image library reports for that file. */
module Scan {
  import opened Options
  import opened Names
  import opened Tags
  import opened Coordinates
  import opened Records

  datatype FileEntry = FileEntry(dir: string, name: string, content: Decoded)

  function PathOf(e: FileEntry): string
  {
    Join(e.dir, e.name)
  }

  /** A progress line: position among all files, the total, and the path. */
  datatype Progress = Progress(index: nat, total: nat, path: string)

  /** A raise nobody catches: the 1-based position of the file, its path, and why. */
  datatype Abort = Abort(index: nat, path: string, fault: Fault)

  datatype ScanState = ScanState(records: seq<Record>, feedback: Feedback, progress: seq<Progress>)

  /** Progress is reported for the first file and every hundredth. */
  predicate Fires(index: nat)
  {
    index % 100 == 0 || index == 1
  }

  /** What one directory entry contributes. Non-candidates contribute nothing;
      a candidate counts as processed and goes through extraction and the
      record builder. */
  function ProcessEntry(e: FileEntry, known: map<int, string>): Result<Built, Fault>
  {
    if !IsCandidate(e.name) then Ok(Built(None, NoChange))
    else
      var b :- BuildRecord(LastSegment(PathOf(e)), ExtractTags(e.name, e.content, known));
      Ok(Built(b.record, Plus(b.delta, Feedback(0, 1, 0, 0, 0, 0))))
  }

  /** What one file yields, for every file of the tree. */
  type Processor = FileEntry -> Result<Built, Fault>

  /** The per-file step of the original, for a given table of tag names. */
  function ProcessorFor(known: map<int, string>): Processor
  {
    e => ProcessEntry(e, known)
  }

  /** One iteration of the scan for the entry at 1-based position `index`,
      given what that entry yields. */
  function Step(st: ScanState, index: nat, e: FileEntry, total: nat, outcome: Result<Built, Fault>): Result<ScanState, Abort>
  {
    var progress := if Fires(index) then st.progress + [Progress(index, total, PathOf(e))] else st.progress;
    match outcome
    case Err(f) => Err(Abort(index, PathOf(e), f))
    case Ok(b) => Ok(ScanState(st.records + ToSeq(b.record), Plus(st.feedback, b.delta), progress))
  }

  /** The scan of `entries`, with `total` the pre-counted number of files and
      `process` what each file yields. The fold does not depend on how a file
      is processed, which keeps its properties separate from the record
      builder's. */
  function ScanWith(entries: seq<FileEntry>, total: nat, process: Processor): (r: Result<ScanState, Abort>)
    ensures r.Ok? ==> |r.value.records| <= |entries| && |r.value.progress| <= |entries| && r.value.feedback.total >= total
    ensures r.Err? ==> 1 <= r.error.index <= |entries|
                       && process(entries[r.error.index - 1]) == Err(r.error.fault)
                       && r.error.path == PathOf(entries[r.error.index - 1])
    decreases |entries|
  {
    if entries == [] then Ok(ScanState([], Feedback(total, 0, 0, 0, 0, 0), []))
    else
      var st :- ScanWith(entries[..|entries| - 1], total, process);
      Step(st, |entries|, entries[|entries| - 1], total, process(entries[|entries| - 1]))
  }

  /** The scan of a whole tree: the total is the number of entries of the same enumeration. */
  function ScanTree(entries: seq<FileEntry>, known: map<int, string>): Result<ScanState, Abort>
  {
    ScanWith(entries, |entries|, ProcessorFor(known))
  }

  /** One more entry extends the scan of a prefix by one step. */
  lemma ScanOneMore(entries: seq<FileEntry>, idx: nat, total: nat, process: Processor)
    requires idx < |entries|
    ensures ScanWith(entries[..idx + 1], total, process)
            == match ScanWith(entries[..idx], total, process)
               case Err(a) => Err(a)
               case Ok(st) => Step(st, idx + 1, entries[idx], total, process(entries[idx]))
  {
    assert entries[..idx + 1][..idx] == entries[..idx];
  }

  /** Once a prefix raises, every longer prefix raises the same way. */
  lemma {:induction false} ScanAbortStays(entries: seq<FileEntry>, n: nat, total: nat, process: Processor)
    requires n <= |entries|
    requires ScanWith(entries[..n], total, process).Err?
    ensures ScanWith(entries, total, process) == ScanWith(entries[..n], total, process)
    decreases |entries| - n
  {
    if n < |entries| {
      ScanOneMore(entries, n, total, process);
      ScanAbortStays(entries, n + 1, total, process);
    } else {
      assert entries[..n] == entries;
    }
  }

  /** The scan written as the original loop: one pass over the entries with
      mutable counters and lists, leaving at the first raise. */
  method ExtractMetadata(entries: seq<FileEntry>, known: map<int, string>) returns (outcome: Result<ScanState, Abort>)
    ensures outcome == ScanTree(entries, known)
  {
    var total := |entries|;
    var data: seq<Record> := [];
    var feedback := Feedback(total, 0, 0, 0, 0, 0);
    var progress: seq<Progress> := [];
    var idx := 0;
    while idx < |entries|
      invariant 0 <= idx <= |entries|
      invariant ScanWith(entries[..idx], total, ProcessorFor(known)) == Ok(ScanState(data, feedback, progress))
    {
      var file := entries[idx];
      ghost var before := ScanState(data, feedback, progress);
      ScanOneMore(entries, idx, total, ProcessorFor(known));
      idx := idx + 1;
      if Fires(idx) {
        progress := progress + [Progress(idx, total, PathOf(file))];
      }
      var r := ProcessEntry(file, known);
      assert ProcessorFor(known)(file) == r;
      if r.Err? {
        assert ScanWith(entries[..idx], total, ProcessorFor(known)) == Err(Abort(idx, PathOf(file), r.error));
        ScanAbortStays(entries, idx, total, ProcessorFor(known));
        return Err(Abort(idx, PathOf(file), r.error));
      }
      data := data + ToSeq(r.value.record);
      feedback := Plus(feedback, r.value.delta);
      assert Step(before, idx, file, total, r) == Ok(ScanState(data, feedback, progress));
    }
    assert entries[..idx] == entries;
    return Ok(ScanState(data, feedback, progress));
  }
}
