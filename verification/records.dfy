/** One output record per file, built from the file's tag map (or its
    absence), with the original's partial-failure policy: a file without tags
    gets an error record, a file without usable coordinates gets no record at
    all, and a missing timestamp is reported in the record's error field. */
module Records {
  import opened Options
  import opened Tags
  import opened Coordinates
  import opened Timestamps
  import TimestampFacts

  /** A metadata record; each `Option` field is a key that may be absent. */
  datatype Record = Record(
    filename: string,
    timestamp: Option<string>,
    error: Option<string>,
    latitude: Option<real>,
    longitude: Option<real>)

  const NoExifError: string := "no exif data"
  const NoTimeError: string := "missing data: time"

  /** The run counters, also used for what one file adds to them. */
  datatype Feedback = Feedback(total: nat, processed: nat, hasExif: nat, hasTimestamp: nat, hasGps: nat, failed: nat)

  const NoChange: Feedback := Feedback(0, 0, 0, 0, 0, 0)

  function Plus(a: Feedback, b: Feedback): Feedback
  {
    Feedback(a.total + b.total, a.processed + b.processed, a.hasExif + b.hasExif,
             a.hasTimestamp + b.hasTimestamp, a.hasGps + b.hasGps, a.failed + b.failed)
  }

  function Flag(b: bool): nat
  {
    if b then 1 else 0
  }

  /** What one file contributes: the record to append, if any, and the counter increments. */
  datatype Built = Built(record: Option<Record>, delta: Feedback)

  function Lookup(tags: TagMap, name: string): Option<TagValue>
  {
    if name in tags then Some(tags[name]) else None
  }

  /** The original capture time when it is truthy, otherwise the last-modified time.
      Whatever is picked is a value of one of those two tags. */
  function TimestampSource(tags: TagMap): (r: Option<TagValue>)
    ensures r.Some? ==> ("DateTimeOriginal" in tags && r.value == tags["DateTimeOriginal"] && Truthy(r.value))
                        || ("DateTime" in tags && r.value == tags["DateTime"])
    ensures r.None? ==> "DateTime" !in tags
  {
    var original := Lookup(tags, "DateTimeOriginal");
    if original.Some? && Truthy(original.value) then original else Lookup(tags, "DateTime")
  }

  /** The timestamp rewrite applied to a tag value: it succeeds exactly for
      non-empty text that parses as a camera date-time, and anything else
      (an absent tag, a non-text value) is refused without raising. */
  function FormatValue(v: Option<TagValue>): (r: Option<string>)
    ensures r.Some? <==> v.Some? && v.value.Text? && v.value.text != [] && Strptime(CameraLayout, v.value.text).Some?
    ensures r.Some? ==> |r.value| == 20
  {
    match v
    case Some(Text(s)) => FormatTimestamp(s)
    case _ => None
  }

  /** A coordinate counts only when present and non-zero (Python truthiness). */
  predicate Present(x: Option<real>)
  {
    x.Some? && x.value != 0.0
  }

  function NoExifRecord(filename: string): Record
  {
    Record(filename, None, Some(NoExifError), None, None)
  }

  /** The record builder for one candidate file. */
  function BuildRecord(filename: string, exif: Option<TagMap>): (r: Result<Built, Fault>)
    ensures r.Ok? ==> r.value.delta.total == 0 && r.value.delta.processed == 0 && r.value.delta.failed == 0
    ensures r.Ok? ==> r.value.delta.hasGps <= r.value.delta.hasExif && r.value.delta.hasTimestamp <= r.value.delta.hasExif
    ensures r.Ok? && r.value.record.Some? ==> r.value.record.value.filename == filename
  {
    if exif.None? || |exif.value| == 0 then
      Ok(Built(Some(NoExifRecord(filename)), NoChange))
    else
      var tags := exif.value;
      var coords :- GetLatLon(Lookup(tags, "GPSInfo"));
      var timestamp := FormatValue(TimestampSource(tags));
      var hasGps := Present(coords.lat) && Present(coords.lon);
      var delta := Feedback(0, 0, 1, Flag(timestamp.Some?), Flag(hasGps), 0);
      if hasGps then
        var error := if timestamp.Some? then None else Some(NoTimeError);
        Ok(Built(Some(Record(filename, timestamp, error, coords.lat, coords.lon)), delta))
      else
        Ok(Built(None, delta))
  }

  /** The three record shapes that can reach the output. */
  predicate WellShaped(r: Record)
  {
    || r == NoExifRecord(r.filename)
    || (&& Present(r.latitude) && Present(r.longitude)
        && (r.timestamp.Some? <==> r.error.None?)
        && (r.error.Some? ==> r.error.value == NoTimeError))
  }

  /** A file without a tag map, or with an empty one, gets exactly the error
      record and changes no counter of the builder. */
  lemma NoExifGivesErrorRecord(filename: string, exif: Option<TagMap>)
    requires exif.None? || |exif.value| == 0
    ensures BuildRecord(filename, exif) == Ok(Built(Some(Record(filename, None, Some("no exif data"), None, None)), NoChange))
  {
  }

  /** With a non-empty tag map, the builder raises exactly when the GPS reader
      does; otherwise the file counts as having tags, counts a timestamp
      exactly when the rewrite succeeds, and counts coordinates exactly when
      both are present and non-zero. */
  lemma TaggedFileCounters(filename: string, tags: TagMap)
    requires |tags| > 0
    ensures BuildRecord(filename, Some(tags)).Err? <==> GetLatLon(Lookup(tags, "GPSInfo")).Err?
    ensures BuildRecord(filename, Some(tags)).Ok? ==>
              var c := GetLatLon(Lookup(tags, "GPSInfo")).value;
              var d := BuildRecord(filename, Some(tags)).value.delta;
              && d.total == 0 && d.processed == 0 && d.failed == 0 && d.hasExif == 1
              && d.hasTimestamp == Flag(FormatValue(TimestampSource(tags)).Some?)
              && d.hasGps == Flag(Present(c.lat) && Present(c.lon))
  {
  }

  /** With a non-empty tag map and both coordinates present and non-zero, the
      record holds the file name, both coordinates, and either the rewritten
      timestamp or the time error, never both. */
  lemma TaggedRecordContents(filename: string, tags: TagMap)
    requires |tags| > 0
    requires GetLatLon(Lookup(tags, "GPSInfo")).Ok?
    requires var c := GetLatLon(Lookup(tags, "GPSInfo")).value; Present(c.lat) && Present(c.lon)
    ensures var c := GetLatLon(Lookup(tags, "GPSInfo")).value;
            var t := FormatValue(TimestampSource(tags));
            BuildRecord(filename, Some(tags)).value.record
            == Some(Record(filename, t, if t.Some? then None else Some("missing data: time"), c.lat, c.lon))
  {
  }

  /** With a non-empty tag map but a coordinate absent or zero, no record is
      produced, whatever the timestamp. */
  lemma NoCoordinatesNoRecord(filename: string, tags: TagMap)
    requires |tags| > 0
    requires GetLatLon(Lookup(tags, "GPSInfo")).Ok?
    requires var c := GetLatLon(Lookup(tags, "GPSInfo")).value; !(Present(c.lat) && Present(c.lon))
    ensures BuildRecord(filename, Some(tags)) == Ok(Built(None, BuildRecord(filename, Some(tags)).value.delta))
  {
  }

  /** Every record the builder produces has one of the three shapes; in
      particular latitude and longitude are present together. */
  lemma BuiltRecordsWellShaped(filename: string, exif: Option<TagMap>)
    requires BuildRecord(filename, exif).Ok? && BuildRecord(filename, exif).value.record.Some?
    ensures WellShaped(BuildRecord(filename, exif).value.record.value)
    ensures var r := BuildRecord(filename, exif).value.record.value; r.latitude.Some? <==> r.longitude.Some?
  {
  }

  /** A timestamp that reaches a record is 20 characters long and reads back,
      under the output convention, as the very date and time held by the tag
      it was taken from. */
  lemma TimestampReadsBack(tags: TagMap)
    requires FormatValue(TimestampSource(tags)).Some?
    ensures var source := TimestampSource(tags).value;
            var t := FormatValue(TimestampSource(tags)).value;
            && source.Text? && |t| == 20
            && Strptime(OutputLayout, t).Some?
            && Strptime(OutputLayout, t) == Strptime(CameraLayout, source.text)
  {
    TimestampFacts.FormatRoundTrip(TimestampSource(tags).value.text);
  }

  /** The capture time is preferred whenever it is truthy; otherwise the
      modification time is used, even when it is absent. */
  lemma TimestampPriority(tags: TagMap)
    ensures "DateTimeOriginal" in tags && Truthy(tags["DateTimeOriginal"])
            ==> TimestampSource(tags) == Some(tags["DateTimeOriginal"])
    ensures !("DateTimeOriginal" in tags && Truthy(tags["DateTimeOriginal"]))
            ==> TimestampSource(tags) == (if "DateTime" in tags then Some(tags["DateTime"]) else None)
  {
  }
}
