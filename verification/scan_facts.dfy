/** What a whole scan computes, stated per file without the fold. Each file
    is classified once, from its name and tags alone; the counters are then
    counts of classes, the records are exactly those of the files whose
    class leaves one, in order, and the run raises at the first file whose
    class raises. */
module ScanFacts {
  import opened Options
  import opened Names
  import opened Tags
  import opened Coordinates
  import opened Records
  import opened Scan
  import opened FoldFacts

  /** What a file is, for the run: not a candidate; a candidate without a
      non-empty tag map; a candidate whose GPS value makes the reader raise;
      or a candidate with tags, with or without a usable timestamp and
      coordinates. */
  datatype Kind = Skipped | Untagged | Raising | Tagged(timestamp: bool, gps: bool)

  /** The counters a run keeps per file. */
  datatype Tally = NotCandidate | Processed | Exif | Timestamp | Gps

  function TagsOf(e: FileEntry, known: map<int, string>): Option<TagMap>
  {
    ExtractTags(e.name, e.content, known)
  }

  /** The class of a candidate, from its tag map. */
  function TagKind(tags: Option<TagMap>): Kind
  {
    if tags.None? || |tags.value| == 0 then Untagged
    else
      var c := GetLatLon(Lookup(tags.value, "GPSInfo"));
      if c.Err? then Raising
      else Tagged(FormatValue(TimestampSource(tags.value)).Some?, Present(c.value.lat) && Present(c.value.lon))
  }

  /** The class of a file, from its name and its tag map. */
  function Classify(e: FileEntry, known: map<int, string>): Kind
  {
    if !IsCandidate(e.name) then Skipped else TagKind(TagsOf(e, known))
  }

  function Classifier(known: map<int, string>): FileEntry -> Kind
  {
    e => Classify(e, known)
  }

  /** Whether a class falls under a counter. */
  predicate Counted(k: Kind, t: Tally)
  {
    match t
    case NotCandidate => k.Skipped?
    case Processed => !k.Skipped?
    case Exif => k.Tagged? || k.Raising?
    case Timestamp => k.Tagged? && k.timestamp
    case Gps => k.Tagged? && k.gps
  }

  /** Whether a class leaves a record. */
  predicate Emits(k: Kind)
  {
    k.Untagged? || (k.Tagged? && k.gps)
  }

  /** The counter increments a class calls for. */
  function TallyDelta(k: Kind): Feedback
  {
    Feedback(0, Flag(Counted(k, Processed)), Flag(Counted(k, Exif)), Flag(Counted(k, Timestamp)), Flag(Counted(k, Gps)), 0)
  }

  function KindDelta(cls: FileEntry -> Kind): FileEntry -> Feedback
  {
    e => TallyDelta(cls(e))
  }

  /** How many of `es` a counter counts. */
  function Count(es: seq<FileEntry>, cls: FileEntry -> Kind, t: Tally): (n: nat)
    ensures n <= |es|
    decreases |es|
  {
    if es == [] then 0
    else Count(es[..|es| - 1], cls, t) + Flag(Counted(cls(es[|es| - 1]), t))
  }

  /** The counters a finished scan of `es` should report. */
  function Expected(es: seq<FileEntry>, total: nat, known: map<int, string>): Feedback
  {
    var cls := Classifier(known);
    Feedback(total, Count(es, cls, Processed), Count(es, cls, Exif), Count(es, cls, Timestamp), Count(es, cls, Gps), 0)
  }

  /** The record name a file should leave: its last path segment when its class emits. */
  function NameIf(cls: FileEntry -> Kind): FileEntry -> seq<string>
  {
    e => if Emits(cls(e)) then [LastSegment(PathOf(e))] else []
  }

  /** The record names a scan should leave: one per emitting file, in order. */
  function EmittedNames(es: seq<FileEntry>, known: map<int, string>): seq<string>
  {
    Concat(es, NameIf(Classifier(known)))
  }

  // ---------------------------------------------------------------------
  // One file

  /** How one entry goes through the record builder. */
  lemma ProcessEntryOf(e: FileEntry, known: map<int, string>)
    ensures !IsCandidate(e.name) ==> ProcessEntry(e, known) == Ok(Built(None, NoChange))
    ensures IsCandidate(e.name) ==>
              var built := BuildRecord(LastSegment(PathOf(e)), TagsOf(e, known));
              ProcessEntry(e, known)
              == if built.Err? then Err(built.error)
                 else Ok(Built(built.value.record, Plus(built.value.delta, Feedback(0, 1, 0, 0, 0, 0))))
  {
  }

  /** One file raises exactly when its class is `Raising`, with the GPS reader's fault. */
  lemma EntryRaises(e: FileEntry, known: map<int, string>)
    ensures ProcessEntry(e, known).Err? <==> Classify(e, known).Raising?
    ensures ProcessEntry(e, known).Err? ==>
              ProcessEntry(e, known).error == GetLatLon(Lookup(TagsOf(e, known).value, "GPSInfo")).error
  {
    ProcessEntryOf(e, known);
    var tags := TagsOf(e, known);
    if IsCandidate(e.name) && tags.Some? && |tags.value| > 0 {
      TaggedFileCounters(LastSegment(PathOf(e)), tags.value);
    }
  }

  /** The increments a class calls for, field by field. */
  lemma TallyDeltaOf(k: Kind)
    ensures k.Skipped? ==> TallyDelta(k) == NoChange
    ensures k.Untagged? ==> TallyDelta(k) == Feedback(0, 1, 0, 0, 0, 0)
    ensures k.Tagged? ==> TallyDelta(k) == Feedback(0, 1, 1, Flag(k.timestamp), Flag(k.gps), 0)
  {
    var d := TallyDelta(k);
    assert d.total == 0 && d.failed == 0;
  }

  /** The increments of a candidate with tags, from its tag map. */
  lemma TaggedIncrements(e: FileEntry, known: map<int, string>)
    requires Classify(e, known).Tagged? && ProcessEntry(e, known).Ok?
    ensures ProcessEntry(e, known).value.delta
            == Feedback(0, 1, 1, Flag(Classify(e, known).timestamp), Flag(Classify(e, known).gps), 0)
  {
    var name := LastSegment(PathOf(e));
    ProcessEntryOf(e, known);
    TaggedBuildDelta(name, TagsOf(e, known));
  }

  /** The builder's increments for a tag map of class `Tagged`. */
  lemma TaggedBuildDelta(name: string, tags: Option<TagMap>)
    requires TagKind(tags).Tagged?
    ensures BuildRecord(name, tags).Ok?
    ensures BuildRecord(name, tags).value.delta == Feedback(0, 0, 1, Flag(TagKind(tags).timestamp), Flag(TagKind(tags).gps), 0)
  {
    TaggedFileCounters(name, tags.value);
  }

  /** The increments of a file without tags. */
  lemma UntaggedIncrements(e: FileEntry, known: map<int, string>)
    requires Classify(e, known).Skipped? || Classify(e, known).Untagged?
    ensures ProcessEntry(e, known).Ok?
    ensures ProcessEntry(e, known).value.delta == Feedback(0, Flag(IsCandidate(e.name)), 0, 0, 0, 0)
  {
    ProcessEntryOf(e, known);
    if IsCandidate(e.name) {
      UntaggedBuild(LastSegment(PathOf(e)), TagsOf(e, known));
    }
  }

  /** The builder's outcome for a tag map of class `Untagged`. */
  lemma UntaggedBuild(name: string, tags: Option<TagMap>)
    requires TagKind(tags).Untagged?
    ensures BuildRecord(name, tags) == Ok(Built(Some(NoExifRecord(name)), NoChange))
  {
    NoExifGivesErrorRecord(name, tags);
  }

  /** One file's counter increments are those its class calls for. */
  lemma EntryDelta(e: FileEntry, known: map<int, string>)
    requires ProcessEntry(e, known).Ok?
    ensures ProcessEntry(e, known).value.delta == TallyDelta(Classify(e, known))
  {
    var k := Classify(e, known);
    EntryRaises(e, known);
    TallyDeltaOf(k);
    if k.Tagged? {
      TaggedIncrements(e, known);
    } else if k.Skipped? {
      assert !IsCandidate(e.name);
      UntaggedIncrements(e, known);
    } else {
      assert k.Untagged? && IsCandidate(e.name);
      UntaggedIncrements(e, known);
    }
  }

  /** One file leaves a record exactly when its class emits, and that record
      is well-shaped and named after the last segment of the file's path. */
  lemma EntryRecord(e: FileEntry, known: map<int, string>)
    requires ProcessEntry(e, known).Ok?
    ensures ProcessEntry(e, known).value.record.Some? <==> Emits(Classify(e, known))
    ensures ProcessEntry(e, known).value.record.Some? ==>
              && WellShaped(ProcessEntry(e, known).value.record.value)
              && ProcessEntry(e, known).value.record.value.filename == LastSegment(PathOf(e))
  {
    ProcessEntryOf(e, known);
    EntryRaises(e, known);
    if IsCandidate(e.name) {
      var name := LastSegment(PathOf(e));
      var tags := TagsOf(e, known);
      if tags.Some? && |tags.value| > 0 {
        var c := GetLatLon(Lookup(tags.value, "GPSInfo")).value;
        if Present(c.lat) && Present(c.lon) {
          TaggedRecordContents(name, tags.value);
        } else {
          NoCoordinatesNoRecord(name, tags.value);
        }
      } else {
        NoExifGivesErrorRecord(name, tags);
      }
      if BuildRecord(name, tags).value.record.Some? {
        BuiltRecordsWellShaped(name, tags);
      }
    }
  }

  /** The name one file adds to the record list, if any. */
  lemma EntryName(e: FileEntry, known: map<int, string>)
    requires ProcessEntry(e, known).Ok?
    ensures Filenames(ToSeq(ProcessEntry(e, known).value.record)) == NameIf(Classifier(known))(e)
  {
    EntryRecord(e, known);
  }

  /** The record a candidate's tag map calls for, read off its class: the
      no-tags error record; for a tagged file with both coordinates, the
      coordinates with the rewritten timestamp or the time error; otherwise
      none. */
  function KindRecord(name: string, tags: Option<TagMap>): Option<Record>
  {
    match TagKind(tags)
    case Untagged => Some(Record(name, None, Some("no exif data"), None, None))
    case Tagged(_, gps) =>
      if !gps then None
      else
        var c := GetLatLon(Lookup(tags.value, "GPSInfo")).value;
        var t := FormatValue(TimestampSource(tags.value));
        Some(Record(name, t, if t.Some? then None else Some("missing data: time"), c.lat, c.lon))
    case _ => None
  }

  /** The records a file should leave: none for a non-candidate, otherwise
      what its tag map calls for, under the last segment of its path. */
  function ExpectedRecord(known: map<int, string>): FileEntry -> seq<Record>
  {
    (e: FileEntry) => if IsCandidate(e.name) then ToSeq(KindRecord(LastSegment(PathOf(e)), TagsOf(e, known))) else []
  }

  /** The builder leaves exactly the record the tag map's class calls for. */
  lemma BuildIsKindRecord(name: string, tags: Option<TagMap>)
    requires BuildRecord(name, tags).Ok?
    ensures BuildRecord(name, tags).value.record == KindRecord(name, tags)
  {
    if tags.None? || |tags.value| == 0 {
      NoExifGivesErrorRecord(name, tags);
    } else {
      TaggedFileCounters(name, tags.value);
      var c := GetLatLon(Lookup(tags.value, "GPSInfo")).value;
      if Present(c.lat) && Present(c.lon) {
        TaggedRecordContents(name, tags.value);
      } else {
        NoCoordinatesNoRecord(name, tags.value);
      }
    }
  }

  /** The records one file adds are those its class calls for. */
  lemma EntryRecordExact(e: FileEntry, known: map<int, string>)
    requires ProcessEntry(e, known).Ok?
    ensures ToSeq(ProcessEntry(e, known).value.record) == ExpectedRecord(known)(e)
  {
    ProcessEntryOf(e, known);
    if IsCandidate(e.name) {
      BuildIsKindRecord(LastSegment(PathOf(e)), TagsOf(e, known));
    }
  }

  /** A HEIC candidate never raises and always leaves the no-tags record. */
  lemma HeicGetsNoExifRecord(e: FileEntry, known: map<int, string>)
    requires IsCandidate(e.name) && IsHeic(e.name)
    ensures Classify(e, known) == Untagged
    ensures ProcessEntry(e, known) == Ok(Built(Some(NoExifRecord(LastSegment(PathOf(e)))), Feedback(0, 1, 0, 0, 0, 0)))
  {
    assert TagsOf(e, known) == None;
    ProcessEntryOf(e, known);
    NoExifGivesErrorRecord(LastSegment(PathOf(e)), None);
  }

  // ---------------------------------------------------------------------
  // Counting classes

  /** Summing the increments of the classes counts each class. */
  lemma {:induction false} TotalOfTallies(es: seq<FileEntry>, cls: FileEntry -> Kind)
    ensures Total(es, KindDelta(cls))
            == Feedback(0, Count(es, cls, Processed), Count(es, cls, Exif), Count(es, cls, Timestamp), Count(es, cls, Gps), 0)
    decreases |es|
  {
    if es != [] {
      var init := es[..|es| - 1];
      TotalOfTallies(init, cls);
      var t := Total(es, KindDelta(cls));
      assert t == Plus(Total(init, KindDelta(cls)), TallyDelta(cls(es[|es| - 1])));
      assert t.total == 0 && t.failed == 0 && t.processed == Count(es, cls, Processed) && t.hasExif == Count(es, cls, Exif);
      assert t.hasTimestamp == Count(es, cls, Timestamp) && t.hasGps == Count(es, cls, Gps);
    }
  }

  /** Counters nest: a file with coordinates or a timestamp has tags, and a
      file with tags is a candidate; candidates and the other files
      partition the entries; and the emitting files are the untagged
      candidates plus the files with coordinates. */
  lemma {:induction false} CountsNest(es: seq<FileEntry>, cls: FileEntry -> Kind)
    ensures Count(es, cls, Gps) <= Count(es, cls, Exif)
    ensures Count(es, cls, Timestamp) <= Count(es, cls, Exif)
    ensures Count(es, cls, Exif) <= Count(es, cls, Processed)
    ensures Count(es, cls, Processed) + Count(es, cls, NotCandidate) == |es|
    ensures |Concat(es, NameIf(cls))| + Count(es, cls, Exif) == Count(es, cls, Processed) + Count(es, cls, Gps)
    decreases |es|
  {
    if es != [] {
      CountsNest(es[..|es| - 1], cls);
    }
  }

  // ---------------------------------------------------------------------
  // The whole scan

  /** A finished scan reports the counts of its entries' classes. */
  lemma ScanCounters(es: seq<FileEntry>, known: map<int, string>)
    requires ScanTree(es, known).Ok?
    ensures ScanTree(es, known).value.feedback == Expected(es, |es|, known)
  {
    forall i | 0 <= i < |es| && ProcessorFor(known)(es[i]).Ok?
      ensures ProcessorFor(known)(es[i]).value.delta == KindDelta(Classifier(known))(es[i])
    {
      EntryDelta(es[i], known);
    }
    FoldCounters(es, |es|, ProcessorFor(known), KindDelta(Classifier(known)));
    TotalOfTallies(es, Classifier(known));
  }

  /** A finished scan leaves one record per emitting file, in enumeration
      order, named after the last segment of that file's path. */
  lemma ScanRecordNames(es: seq<FileEntry>, known: map<int, string>)
    requires ScanTree(es, known).Ok?
    ensures Filenames(ScanTree(es, known).value.records) == EmittedNames(es, known)
  {
    forall i | 0 <= i < |es| && ProcessorFor(known)(es[i]).Ok?
      ensures Filenames(ToSeq(ProcessorFor(known)(es[i]).value.record)) == NameIf(Classifier(known))(es[i])
    {
      EntryName(es[i], known);
    }
    FoldNames(es, |es|, ProcessorFor(known), NameIf(Classifier(known)));
  }

  /** A finished scan's output is, in enumeration order, the record each
      file's class calls for, field by field. */
  lemma ScanRecords(es: seq<FileEntry>, known: map<int, string>)
    requires ScanTree(es, known).Ok?
    ensures ScanTree(es, known).value.records == Concat(es, ExpectedRecord(known))
  {
    forall i | 0 <= i < |es| && ProcessorFor(known)(es[i]).Ok?
      ensures ToSeq(ProcessorFor(known)(es[i]).value.record) == ExpectedRecord(known)(es[i])
    {
      EntryRecordExact(es[i], known);
    }
    FoldRecords(es, |es|, ProcessorFor(known), ExpectedRecord(known));
  }

  /** Every record of a finished scan is well-shaped. */
  lemma ScanRecordsWellShaped(es: seq<FileEntry>, known: map<int, string>)
    requires ScanTree(es, known).Ok?
    ensures forall r <- ScanTree(es, known).value.records :: WellShaped(r)
  {
    forall i | 0 <= i < |es| && ProcessorFor(known)(es[i]).Ok? && ProcessorFor(known)(es[i]).value.record.Some?
      ensures WellShaped(ProcessorFor(known)(es[i]).value.record.value)
    {
      EntryRecord(es[i], known);
    }
    FoldRecordsAll(es, |es|, ProcessorFor(known), r => WellShaped(r));
  }

  /** The scan raises exactly when some file's class raises, and then it
      stops at the first such file, reporting its position, its path and
      the GPS reader's fault. */
  lemma ScanAborts(es: seq<FileEntry>, known: map<int, string>)
    ensures ScanTree(es, known).Err? <==> exists i :: 0 <= i < |es| && Classify(es[i], known).Raising?
    ensures ScanTree(es, known).Err? ==>
              exists i :: && 0 <= i < |es| && Classify(es[i], known).Raising?
                          && (forall j :: 0 <= j < i ==> !Classify(es[j], known).Raising?)
                          && ScanTree(es, known).error
                             == Abort(i + 1, PathOf(es[i]), GetLatLon(Lookup(TagsOf(es[i], known).value, "GPSInfo")).error)
  {
    forall i | 0 <= i < |es|
      ensures ProcessorFor(known)(es[i]).Err? <==> Classify(es[i], known).Raising?
      ensures ProcessorFor(known)(es[i]).Err? ==>
                ProcessorFor(known)(es[i]).error == GetLatLon(Lookup(TagsOf(es[i], known).value, "GPSInfo")).error
    {
      EntryRaises(es[i], known);
    }
    FoldAborts(es, |es|, ProcessorFor(known));
  }

  /** A finished scan prints exactly the lines for positions 1, 100, 200, …,
      each with the number of files and the path of the file at that position. */
  lemma ScanProgress(es: seq<FileEntry>, known: map<int, string>)
    requires ScanTree(es, known).Ok?
    ensures ScanTree(es, known).value.progress == ProgressLines(es, |es|)
    ensures |ScanTree(es, known).value.progress| == if es == [] then 0 else |es| / 100 + 1
  {
    FoldProgress(es, |es|, ProcessorFor(known));
  }

  /** The counter invariants of a finished scan, and the record count they imply. */
  lemma CounterBounds(es: seq<FileEntry>, known: map<int, string>)
    requires ScanTree(es, known).Ok?
    ensures var f := ScanTree(es, known).value.feedback;
            && f.total == |es| && f.failed == 0
            && f.hasGps <= f.hasExif <= f.processed <= f.total
            && f.hasTimestamp <= f.hasExif
            && f.total == f.processed + Count(es, Classifier(known), NotCandidate)
            && |ScanTree(es, known).value.records| + f.hasExif == f.processed + f.hasGps
  {
    ScanCounters(es, known);
    ScanRecordNames(es, known);
    CountsNest(es, Classifier(known));
  }

  /** Records and progress lines come out in enumeration order: the scan of
      a prefix of the files is a prefix of the scan. */
  lemma ScanInOrder(es: seq<FileEntry>, n: nat, known: map<int, string>)
    requires n <= |es| && ScanTree(es, known).Ok?
    ensures ScanWith(es[..n], |es|, ProcessorFor(known)).Ok?
    ensures ScanWith(es[..n], |es|, ProcessorFor(known)).value.records <= ScanTree(es, known).value.records
    ensures ScanWith(es[..n], |es|, ProcessorFor(known)).value.progress <= ScanTree(es, known).value.progress
  {
    FoldPrefix(es, n, |es|, ProcessorFor(known));
  }

  /** With the pre-count held fixed, a non-candidate appended to the walk
      changes neither the records, nor the counters, nor whether the scan
      raises. */
  lemma SkippedFileChangesNothing(es: seq<FileEntry>, e: FileEntry, total: nat, known: map<int, string>)
    requires !IsCandidate(e.name)
    ensures ScanWith(es + [e], total, ProcessorFor(known)).Ok? <==> ScanWith(es, total, ProcessorFor(known)).Ok?
    ensures ScanWith(es, total, ProcessorFor(known)).Ok? ==>
              && ScanWith(es + [e], total, ProcessorFor(known)).value.records == ScanWith(es, total, ProcessorFor(known)).value.records
              && ScanWith(es + [e], total, ProcessorFor(known)).value.feedback == ScanWith(es, total, ProcessorFor(known)).value.feedback
  {
    ProcessEntryOf(e, known);
    FoldQuietStep(es, e, total, ProcessorFor(known));
  }

  /** The names of the emitting files themselves. */
  function EntryNameIf(cls: FileEntry -> Kind): FileEntry -> seq<string>
  {
    e => if Emits(cls(e)) then [e.name] else []
  }

  /** When no file name holds a separator, every record is named after its file. */
  lemma {:induction false} PlainNamesKept(es: seq<FileEntry>, cls: FileEntry -> Kind)
    requires forall i :: 0 <= i < |es| ==> '/' !in es[i].name
    ensures Concat(es, NameIf(cls)) == Concat(es, EntryNameIf(cls))
    decreases |es|
  {
    if es != [] {
      var e := es[|es| - 1];
      PlainNamesKept(es[..|es| - 1], cls);
      BasenameOfJoin(e.dir, e.name);
    }
  }
}
