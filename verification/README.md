# Photo metadata scraper — a Dafny model of its extraction pipeline

The scraper walks a photo directory tree. For each image file it reads the
embedded camera tags and turns the capture time and GPS position into a
uniform record. It collects those records into a list and counts what it saw
(`total`, `processed`, `has_exif`, `has_timestamp`, `has_gps`, `failed`). At
the end it appends those counters to a run history keyed by the run's start
time.

This project models that pipeline as pure functions over immutable data:

- `names.dfy` (module `Names`): which directory entries count as images, and
  how the record's file name comes from the joined path.
- `tags.dfy` (module `Tags`): the tag block as the image library reports it,
  and the filter that keeps only codes with a known name.
- `coordinates.dfy` (module `Coordinates`): degree/minute/second triples to
  signed decimal degrees, exact over `real`. A lookup that would raise
  becomes a `Fault`.
- `timestamps.dfy`, `timestamp_facts.dfy` (modules `Timestamps`,
  `TimestampFacts`): the `strptime('%Y:%m:%d %H:%M:%S')` /
  `strftime('%Y-%m-%dT%H:%M:%SZ')` rewrite. The parse follows CPython's
  `_strptime` rules: the pattern's field widths and value ranges, whitespace
  runs, full match, then calendar validity.
- `records.dfy` (module `Records`): the per-file record builder with its
  partial-failure policy, plus the counter increments of one file.
- `scan.dfy`, `fold_facts.dfy`, `scan_facts.dfy` (modules `Scan`,
  `FoldFacts`, `ScanFacts`): the scan as a fold over the enumerated files.
  `Scan.ExtractMetadata` is the original loop, written imperatively and
  proved equal to the fold. An uncaught raise aborts the fold.
- `history.dfy` (module `History`): the run history update.
- `pipeline.dfy` (module `Pipeline`): the whole run — scan, summary, history.

Parameters stand in for the outside world:

- the directory walk is a sequence of `FileEntry(dir, name, content)` in walk
  order;
- `content` is what the image library would report for that file;
- the table of tag names is a `map<int, string>`;
- the history file's parsed content is a `HistoryFile`;
- the run's start time is the string `startKey`.

The `.heic` branch of the tag reader calls a module that is never imported.
The resulting `NameError` is caught by the reader's own handler, so every
`.heic` file gets the "no exif data" record. The model encodes this directly
(`Tags.ExtractTags`).

A file with tags but without usable coordinates leaves no record. At
`main.py:139` that branch sets the entry's error to "missing data: gps" and
then `continue`s before the append at `main.py:143`, so the error never
reaches the output. The file's counters have already moved by then:
`has_exif`, and `has_timestamp` when the time was rewritten. The model
follows this (`Records.NoCoordinatesNoRecord`).

## Model

| member | source | states |
|---|---|---|
| Names.IsCandidate | main.py:112 | A candidate name is at least four characters long, the length of the shortest image extension. |
| Names.Join | main.py:105 | An absolute entry name replaces the directory. Otherwise the path starts with the directory, ends with the name, and adds at most one separator between them. |
| Names.LastSegment | main.py:114 | The last segment holds no `/` and ends the path. When it is not the whole path, the character before it is a `/`. |
| Names.CandidateIgnoresCase | main.py:112 | Whether a name is processed does not depend on letter case: two names equal once lower-cased are both candidates or both not. |
| Names.ExtensionMakesCandidate | main.py:112 | Any stem not starting with `._`, followed by `.jpg`, `.jpeg`, `.png` or `.heic` in any letter case, is a candidate. |
| Names.SidecarNeverCandidate | main.py:112 | A name starting with `._` is never processed, whatever its extension. |
| Names.CandidateHasExtension | main.py:112 | Every candidate has a suffix that lower-cases to one of the four image extensions (the converse of ExtensionMakesCandidate). |
| Names.BasenameOfJoin | main.py:114 | For an entry name without `/`, the last `/`-segment of the joined path is the entry name itself, so the record's file name is the file's own name. |
| Names.LastSegmentAfterSeparator | main.py:114 | Splitting on `/` and taking the last piece of a path that ends in a separator plus a separator-free name gives that name. |
| Tags.FilterTags | main.py:47 | A tag name is in the filtered map exactly when some pair in the block has a code with that name. When several codes share a name, the value of the last such pair wins. |
| Tags.FilterTagsKeys | main.py:47 | Every key of the filtered map is a known tag name, and no pair with a known code is lost. |
| Tags.ExtractTags | main.py:32-52 | A `.heic` file never yields tags. Any other file yields a tag map exactly when the library returned a tag block; a decoder error or missing block gives none. |
| Tags.ExtractedNamesKnown | main.py:42-47 | Every name in an extracted tag map is a name from the table of known tags. |
| Coordinates.ConvertToDegrees | main.py:55-57 | Unpacking succeeds exactly for a degree/minute/second triple; anything else raises with the tag code. For non-negative parts, the result is at least the degrees. |
| Coordinates.Degrees | main.py:55-57 | d + m/60 + s/3600 is at least d for non-negative parts, and the all-zero triple gives 0. |
| Coordinates.GetLatLon | main.py:60-70 | Latitude and longitude are both present or both absent. When present, they come from codes 2 and 4, each negated exactly when its reference (code 1, resp. 3) is "S", resp. "W". |
| Coordinates.NoCoordinatesIff | main.py:60-70 | The reader returns (None, None) without raising exactly when the GPS value is absent or falsy, or is a mapping lacking code 2 or code 4. |
| Coordinates.RaisesIff | main.py:55-68 | The reader raises exactly when the GPS value is a truthy non-mapping, or has codes 2 and 4 but one of them is not a triple or a reference code 1 or 3 is missing. |
| Coordinates.HemisphereSigns | main.py:67-68 | For non-negative triples, latitude is ≤ 0 under "S" and ≥ 0 under any other reference; longitude likewise with "W". |
| Timestamps.MatchFields | main.py:77 | Fields that the pattern match reads lie in the ranges the pattern admits: month 1–12, day 1–31, hour ≤ 23, minute ≤ 59, second ≤ 61, none negative. |
| Timestamps.Strftime | main.py:78 | Every field is zero-padded, so the written text is 19 characters plus the layout's literal tail. |
| Timestamps.Strptime | main.py:77 | Any date-time the parse accepts is a valid calendar date and time. |
| Timestamps.FormatTimestamp | main.py:73-82 | Empty text gives none. The result exists exactly when the camera pattern parses the text to a valid date-time, and it is then 20 characters long. |
| TimestampFacts.StrptimeStrftime | main.py:77-78 | Parsing what `strftime` wrote, under the same layout, recovers the date-time. |
| TimestampFacts.FormatRoundTrip | main.py:77-78 | Parsing the rewritten timestamp with the output pattern gives back the date-time that the camera text held. |
| TimestampFacts.FormatPieces | main.py:76-82 | Camera text built from digit fields of the allowed widths is accepted exactly when its fields form a valid date-time, and is then rewritten zero-padded in the output layout. |
| TimestampFacts.FormatCanonical | main.py:77-78 | A canonical `YYYY:MM:DD HH:MM:SS` text is accepted exactly when its fields are a valid date-time. The output then has the same digits, `-` at positions 4 and 7, `T` at position 10, and `Z` appended. |
| TimestampFacts.FormatCameraText | main.py:76-82 | The canonical camera text of any printable fields is accepted exactly when the fields are a valid date-time, and is rewritten as the output text of those fields. |
| TimestampFacts.RejectsMonthOutOfRange | main.py:76-82 | Month 00 or 13 is refused, without raising, whatever follows. |
| TimestampFacts.RejectsPlaceholder | main.py:79-82 | The all-zero camera placeholder `0000:00:00 00:00:00` is refused. |
| TimestampFacts.AcceptsShortFields | main.py:77-78 | Month, day, hour, minute and second written with one digit are accepted and come out zero-padded, like their two-digit spelling. |
| TimestampFacts.ShortFieldsExample | main.py:76-82 | `format_timestamp("2023:5:1 7:3:9")` returns `2023-05-01T07:03:09Z`. |
| TimestampFacts.LeapDay | main.py:77 | 29 February is accepted exactly in leap years. |
| TimestampFacts.LeapDayExampleAccepted | main.py:76-82 | `format_timestamp("2024:02:29 10:00:00")` returns `2024-02-29T10:00:00Z`. |
| TimestampFacts.LeapDayExampleRejected | main.py:76-82 | `format_timestamp("2023:02:29 10:00:00")` returns nothing, because 2023 is not a leap year. |
| Records.TimestampSource | main.py:125 | Whatever is picked is the value of `DateTimeOriginal`, when that is truthy, or of `DateTime`. Nothing is picked only when `DateTime` is absent. |
| Records.FormatValue | main.py:125-128 | A timestamp comes out exactly when the tag value is non-empty text that parses under the camera pattern. It is then 20 characters long. A missing or non-text value gives none, without raising. |
| Records.TimestampReadsBack | main.py:125-128 | A timestamp that reaches a record reads back, under the output pattern, as exactly the date-time held by the tag it came from. |
| Records.TimestampPriority | main.py:125 | The timestamp source is `DateTimeOriginal` when it is truthy. Otherwise it is `DateTime`, or nothing when that tag is absent. |
| Records.BuildRecord | main.py:113-143 | One file never changes `total`, `processed` or `failed` itself, never counts a GPS or timestamp hit without counting tags, and any record it yields carries the given file name. |
| Records.NoExifGivesErrorRecord | main.py:118-120 | With no tag map or an empty one, the record is exactly {filename, error "no exif data"} and no counter moves. |
| Records.TaggedFileCounters | main.py:122-138 | With a non-empty tag map, the file raises exactly when the GPS reader raises. Otherwise it adds 1 to `has_exif`, 1 to `has_timestamp` iff the timestamp was rewritten, and 1 to `has_gps` iff both coordinates are present and non-zero. |
| Records.TaggedRecordContents | main.py:130-143 | With both coordinates non-zero, the record is {filename, timestamp, latitude, longitude} when the time was rewritten, and {filename, error "missing data: time", latitude, longitude} otherwise. |
| Records.NoCoordinatesNoRecord | main.py:135-139 | With a non-empty tag map but a coordinate absent or 0.0, no record is appended, whatever the timestamp. |
| Records.BuiltRecordsWellShaped | main.py:118-143 | Every record has one of the three shapes, so latitude and longitude always appear together. |
| Scan.ScanWith | main.py:103-143 | A finished scan has no more records or progress lines than files, and `total` is at least the pre-count. An aborted scan names a position within the walk; the file there is the one whose processing raised, with that fault and its path. |
| ScanFacts.ProcessEntryOf | main.py:112-143 | A non-candidate yields nothing and changes no counter. A candidate yields the builder's outcome for its last path segment and tag map, with `processed` raised by one, or the builder's raise. |
| Scan.ExtractMetadata | main.py:91-147 | The loop over the entries, with its mutable list, counters, progress index and early exit on a raise, computes exactly the scan fold. |
| Scan.ScanAbortStays | main.py:103-143 | Once a prefix of the walk has raised, the rest of the walk does not change the outcome. |
| FoldFacts.FoldAborts | main.py:103-143 | A scan raises exactly when some file raises. The abort names the first such file, its 1-based index and its path. |
| FoldFacts.FoldProgress | main.py:106-110 | Progress lines are exactly those for indexes 1, 100, 200, … up to the number of files, each with the total and the file's path. |
| FoldFacts.FoldPrefix | main.py:103-143 | The records and progress lines after a prefix of the walk are prefixes of the final ones. |
| FoldFacts.FoldCounters | main.py:97-138 | The final counters are the starting counters (`total` set from the pre-count) plus the sum of every file's increments. |
| FoldFacts.FoldNames | main.py:118-143 | The records' file names are the concatenation, in walk order, of the names each file contributes. |
| FoldFacts.FoldRecords | main.py:118-143 | When every file's records are given by a per-file function, the output is their concatenation in walk order. |
| FoldFacts.FoldRecordsAll | main.py:118-143 | A property that every single file's record has holds for every record of the scan. |
| ScanFacts.EntryRaises | main.py:112-127 | A file raises exactly when it is a candidate with a non-empty tag map whose GPS reader raises, and the raise is the reader's. |
| ScanFacts.EntryDelta | main.py:112-138 | What one file adds to the counters is fixed by its classification: nothing for a non-candidate, `processed` only without tags, and otherwise `processed`, `has_exif` and the timestamp and GPS flags. |
| ScanFacts.EntryRecord | main.py:112-143 | A file contributes a record exactly when it has no tags or has both coordinates. The record is well shaped and named after the last path segment. |
| ScanFacts.HeicGetsNoExifRecord | main.py:32-52 | A candidate `.heic` file always yields the "no exif data" record and counts only as processed. |
| ScanFacts.CountsNest | main.py:113-138 | Over any walk, GPS hits ≤ tagged files, timestamps ≤ tagged files, and tagged files ≤ candidates. Candidates plus non-candidates is the walk length, and emitted names plus tagged files equals candidates plus GPS hits. |
| ScanFacts.ScanCounters | main.py:97-138 | After a scan, each counter equals the number of files of its kind in the walk. |
| ScanFacts.ScanRecordNames | main.py:114-143 | The output's file names are, in walk order, the names of the files that emit a record. |
| ScanFacts.EntryRecordExact | main.py:112-143 | The records one file adds are exactly those its class calls for: none for a non-candidate or a tagged file lacking a coordinate, the "no exif data" record without tags, and otherwise the coordinates with the rewritten timestamp or the time error. |
| ScanFacts.ScanRecords | main.py:103-143 | A finished scan's output is, record by record and in walk order, the concatenation of the records each file's class calls for. |
| ScanFacts.ScanRecordsWellShaped | main.py:118-143 | Every record of a scan has one of the three shapes. |
| ScanFacts.ScanAborts | main.py:103-127 | The scan raises exactly when some file's GPS reader raises; the abort is at the first such file. |
| ScanFacts.ScanProgress | main.py:106-110 | The progress lines are those for index 1 and every multiple of 100. For a non-empty walk there are n/100 + 1 of them. |
| ScanFacts.CounterBounds | main.py:85-143 | `total` is the walk length and `failed` stays 0. `has_gps` ≤ `has_exif` ≤ `processed` ≤ `total` and `has_timestamp` ≤ `has_exif`. `total` = `processed` + non-candidates, and the output length is (`processed` − `has_exif`) + `has_gps`. |
| ScanFacts.ScanInOrder | main.py:103-143 | Records and progress lines are produced in walk order: every prefix of the walk yields a prefix of them. |
| ScanFacts.SkippedFileChangesNothing | main.py:112 | With the pre-count held fixed, a non-candidate appended at the end of the walk leaves the records, every counter, and whether the scan raises unchanged. (Adding a file to the tree also raises `count_files`, and adding it mid-walk shifts later progress positions; neither is stated here.) |
| ScanFacts.PlainNamesKept | main.py:114 | When no entry name holds `/`, the emitted file names are the entries' own names. |
| History.MergeHistory | main.py:167-172 | A missing history file raises, and so does a JSON value that is not an object. An unparsable file or a JSON object gives a history holding the run's counters under the start key. |
| History.MergeKeepsOtherRuns | main.py:170 | The merge adds only the start key; every other recorded run is kept unchanged. |
| History.UnparsableStartsOver | main.py:168-170 | An unparsable history is replaced by one holding only this run. |
| History.SuccessiveRuns | main.py:167-172 | Two runs with different start keys both stay in the history; with the same key the second replaces the first. |
| Pipeline.RunPipeline | main.py:153-172 | The run aborts exactly when the scan raises. Otherwise the written metadata is the scan's records. The history step fails exactly when the history file is missing or not an object, and otherwise holds the run's counters under the start key. |
| Pipeline.SummaryOf | main.py:164 | The summary copies `total`, `processed` and `failed`. Without-exif plus `has_exif`, and without-gps plus `has_gps`, each give `processed`. When `has_gps` ≤ `has_exif` ≤ `processed`, the printed differences satisfy 0 ≤ without-exif ≤ without-gps ≤ processed. |
| Pipeline.SummaryOfFinishedRun | main.py:164 | In the printed summary, `total` is the walk length and `failed` is 0. 0 ≤ without-exif ≤ without-gps ≤ processed, and without-exif is the record count minus the GPS hits. |

## Left out

- Image decoding (PIL, the HEIF plugin, `imageio`) is a foreign library. Each entry carries what the library would report (`Tags.Decoded`).
- The directory walk and `count_files` are a given sequence of entries. `total` is its length, as it is when the tree does not change between the pre-count and the scan.
- Logging, the console progress text, and exception-frame introspection are left out. A progress line is modelled as (index, total, path).
- Clock readings, durations and the humanized average time per image (`main.py:1-4`, 101, 145, 159-163) are left out. The start time is the parameter `startKey`.
- JSON encoding and decoding, and file writing, are left out. The history file's parsed content is a parameter (`History.HistoryFile`), and `Pipeline.RunPipeline` returns what would be written.
- `map.py` (the heatmap renderer run at the end) is not part of this model.
- Floating-point rounding in `convert_to_degrees` is not modelled: the arithmetic is exact over `real`.
- NaN coordinates are not modelled. The image library reads a GPS rational with a zero denominator as NaN, which is truthy at `main.py:135`, so such a file counts toward `has_gps` and is written with NaN coordinates; over `real` the model cannot produce that value.
- Unicode digits in `strptime`'s `\d` are not modelled (only `0`–`9` are digits), and neither is non-ASCII lower-casing. The extensions compared are ASCII.
- `Timestamps.Strftime`: the year is always written zero-padded to four digits. For years below 1000, `%Y` output depends on the platform's C library.
- The model assumes the `GPSInfo` value is a mapping or a non-container value, which is what the image library returns. A truthy non-mapping is modelled as an uncaught raise (`NotAMapping`). For a tuple, list or bytes value the code would instead test membership of 2 and 4 in it, which the model does not follow.
- The defensive "missing data" branch (`main.py:141`) is unreachable, because every entry already holds `filename`. The record builder has no such case.
- When a file raises, the progress lines printed before the raise, including the raising file's own, are not part of the model's abort outcome (`Scan.Abort`). A finished scan keeps them all.
- A history file that is not decodable text raises `UnicodeDecodeError`, which is not caught (only `JSONDecodeError` is, `main.py:168-169`). The model's `Unparsable` stands only for a JSON decode error; it has no undecodable-text case.
- The `failed` counter is never incremented by the code, and the model keeps it at 0 (`ScanFacts.CounterBounds`).
- ScanFacts.SkippedFileChangesNothing: states only the append of a non-candidate at the end of the walk with the pre-count held fixed. It does not follow the pre-count, which a new file raises, or the progress positions a mid-walk insertion shifts.
- Tags.ExtractTags: the fact that extracted keys are known tag names is stated separately, in `Tags.ExtractedNamesKnown`, not in the function's own contract.
