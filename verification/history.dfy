/** The run history: a JSON object keyed by the run's start time, to which
    each finished run adds its counters. Only the shapes the reader can
    meet are modelled: no file, a file that is not valid JSON, a JSON
    object, or any other JSON value. */
module History {
  import opened Options
  import opened Records

  /** A value stored in the history object: the counters of an earlier run,
      or anything else a hand-edited file may hold. */
  datatype Entry = Counters(feedback: Feedback) | OtherValue

  type Runs = map<string, Entry>

  /** What reading the history file yields. */
  datatype HistoryFile =
    | Missing                    // the file does not exist
    | Unparsable                 // the file exists but is not valid JSON
    | JsonObject(runs: Runs)     // a JSON object
    | OtherJson                  // valid JSON that is not an object

  /** Why updating the history raised: the file could not be opened, or its
      value does not accept a string key. */
  datatype HistoryFault = FileNotFound | NotAnObject

  /** The history after a run starting at `key` with counters `run`:
      unparsable content is replaced by an empty object, a missing file or
      a non-object value raises, and the run is stored under its key,
      replacing any earlier run with the same key. */
  function MergeHistory(file: HistoryFile, key: string, run: Feedback): (r: Result<Runs, HistoryFault>)
    ensures r.Ok? <==> file.JsonObject? || file.Unparsable?
    ensures file.Missing? ==> r == Err(FileNotFound)
    ensures file.OtherJson? ==> r == Err(NotAnObject)
    ensures r.Ok? ==> key in r.value && r.value[key] == Counters(run)
  {
    match file
    case Missing => Err(FileNotFound)
    case OtherJson => Err(NotAnObject)
    case Unparsable => Ok(map[key := Counters(run)])
    case JsonObject(runs) => Ok(runs[key := Counters(run)])
  }

  /** Merging into an object keeps every other run untouched and adds
      exactly the new key. */
  lemma MergeKeepsOtherRuns(runs: Runs, key: string, run: Feedback)
    ensures MergeHistory(JsonObject(runs), key, run).Ok?
    ensures MergeHistory(JsonObject(runs), key, run).value.Keys == runs.Keys + {key}
    ensures forall k :: k in runs && k != key ==> MergeHistory(JsonObject(runs), key, run).value[k] == runs[k]
  {
  }

  /** Unparsable content is discarded: the result holds the new run only. */
  lemma UnparsableStartsOver(key: string, run: Feedback)
    ensures MergeHistory(Unparsable, key, run) == Ok(map[key := Counters(run)])
  {
  }

  /** Two runs with different start times, the second reading what the
      first wrote, both stay in the history; with the same start time the
      second replaces the first. */
  lemma {:induction false} SuccessiveRuns(file: HistoryFile, key1: string, run1: Feedback, key2: string, run2: Feedback)
    requires file.JsonObject? || file.Unparsable?
    ensures var first := MergeHistory(file, key1, run1).value;
            var second := MergeHistory(JsonObject(first), key2, run2).value;
            && second[key2] == Counters(run2)
            && (key1 != key2 ==> second[key1] == Counters(run1))
            && second.Keys == first.Keys + {key2}
  {
    var first := MergeHistory(file, key1, run1).value;
    MergeKeepsOtherRuns(first, key2, run2);
  }
}
