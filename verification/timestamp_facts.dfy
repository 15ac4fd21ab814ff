/** What the timestamp rewrite promises: laid-out fields read back as
    themselves, the rewrite parses back under its own format, canonical camera
    text changes only in its separators, short fields are accepted and padded,
    and impossible dates are refused. */
module TimestampFacts {
  import opened Options
  import opened Timestamps

  lemma {:induction false} DigitRunOf(x: string, t: string)
    requires AllDigits(x)
    requires t == [] || !IsDigit(t[0])
    ensures DigitRun(x + t) == |x|
    decreases |x|
  {
    if x != [] {
      assert (x + t)[1..] == x[1..] + t;
      DigitRunOf(x[1..], t);
    }
  }

  lemma {:induction false} SpaceRunOf(g: string, t: string)
    requires forall i | 0 <= i < |g| :: IsSpace(g[i])
    requires t == [] || !IsSpace(t[0])
    ensures SpaceRun(g + t) == |g|
    decreases |g|
  {
    if g != [] {
      assert (g + t)[1..] == g[1..] + t;
      SpaceRunOf(g[1..], t);
    }
  }

  lemma YearOf(x: string, sep: char, rest: string)
    requires DigitPiece(x, 4, 4)
    ensures YearField(x + ([sep] + rest), sep) == Some(Token(Number(x), rest))
  {
    var s := x + ([sep] + rest);
    assert s[..4] == x && s[4] == sep && s[5..] == rest;
  }

  lemma FieldOf(x: string, sep: char, rest: string, lo: int, hi: int)
    requires DigitPiece(x, 1, 2) && !IsDigit(sep)
    ensures Field(x + ([sep] + rest), lo, hi, sep)
            == if lo <= Number(x) <= hi then Some(Token(Number(x), rest)) else None
  {
    var s := x + ([sep] + rest);
    DigitRunOf(x, [sep] + rest);
    assert s[..|x|] == x && s[|x|] == sep && s[|x| + 1..] == rest;
  }

  lemma AfterGapOf(gap: Gap, g: string, rest: string)
    requires GapPiece(gap, g)
    requires rest != [] && IsDigit(rest[0])
    ensures AfterGap(g + rest, gap) == Some(rest)
  {
    match gap
    case Whitespace =>
      SpaceRunOf(g, rest);
      assert (g + rest)[|g|..] == rest;
    case Letter(l) =>
      assert (g + rest)[0] == g[0] && (g + rest)[1..] == rest;
  }

  lemma DayOf(x: string, gap: Gap, g: string, rest: string)
    requires DigitPiece(x, 1, 2) && GapPiece(gap, g)
    requires gap.Letter? ==> 'A' <= gap.letter <= 'Z'
    requires rest != [] && IsDigit(rest[0])
    ensures DayField(x + (g + rest), gap)
            == if 1 <= Number(x) <= 31 then Some(Token(Number(x), rest)) else None
  {
    var s := x + (g + rest);
    assert s[0] == x[0];
    assert !IsDigit(g[0]) by {
      if gap.Whitespace? {
        assert IsSpace(g[0]);
      } else {
        assert SameLetter(g[0], gap.letter);
      }
    }
    DigitRunOf(x, g + rest);
    assert s[..|x|] == x && s[|x|..] == g + rest;
    AfterGapOf(gap, g, rest);
  }

  lemma SecondsOf(x: string, tail: string)
    requires DigitPiece(x, 1, 2)
    requires tail == [] || !IsDigit(tail[0])
    ensures SecondsField(x + tail, tail) == if Number(x) <= 61 then Some(Number(x)) else None
  {
    var s := x + tail;
    DigitRunOf(x, tail);
    assert s[..|x|] == x && s[|x|..] == tail;
    assert MatchesText(tail, tail);
  }

  /** Laid-out pieces match exactly when their values are within the bounds
      of the pattern, and then they read back as their own values. */
  lemma MatchPieces(layout: Layout, p: Pieces)
    requires WellFormedLayout(layout) && WellFormedPieces(layout, p)
    ensures MatchFields(layout, Compose(layout, p))
            == if InPatternRange(ValuesOf(layout, p)) then Some(ValuesOf(layout, p)) else None
  {
    var sep := layout.dateSep;
    var secText := p.second + layout.tail;
    var minText := p.minute + ([':'] + secText);
    var hourText := p.hour + ([':'] + minText);
    var dayText := p.day + (p.gap + hourText);
    var monthText := p.month + ([sep] + dayText);
    assert Compose(layout, p) == p.year + ([sep] + monthText);
    YearOf(p.year, sep, monthText);
    FieldOf(p.month, sep, dayText, 1, 12);
    DayOf(p.day, layout.gap, p.gap, hourText);
    FieldOf(p.hour, ':', minText, 0, 23);
    FieldOf(p.minute, ':', secText, 0, 59);
    SecondsOf(p.second, layout.tail);
  }

  lemma DigitCharValue(k: int)
    requires 0 <= k <= 9
    ensures IsDigit(DigitChar(k)) && DigitValue(DigitChar(k)) == k
  {
  }

  lemma Number2(s: string)
    requires DigitPiece(s, 2, 2)
    ensures Number(s) == DigitValue(s[0]) * 10 + DigitValue(s[1])
  {
    var init := s[..1];
    assert init == [s[0]] && init[..0] == [];
    assert s[..|s| - 1] == init;
    assert Number(init) == Number(init[..0]) * 10 + DigitValue(s[0]);
  }

  lemma Number4(s: string)
    requires DigitPiece(s, 4, 4)
    ensures Number(s) == Number(s[..2]) * 100 + Number(s[2..])
  {
    assert s[..3][..2] == s[..2];
    Number2(s[2..]);
  }

  lemma Pad2Reads(n: int)
    requires 0 <= n <= 99
    ensures DigitPiece(Pad2(n), 2, 2) && Number(Pad2(n)) == n
  {
    DigitCharValue(n / 10);
    DigitCharValue(n % 10);
    Number2(Pad2(n));
  }

  lemma Pad4Reads(n: int)
    requires 0 <= n <= 9999
    ensures DigitPiece(Pad4(n), 4, 4) && Number(Pad4(n)) == n
  {
    var s := Pad4(n);
    Pad2Reads(n / 100);
    Pad2Reads(n % 100);
    assert s[..2] == Pad2(n / 100) && s[2..] == Pad2(n % 100);
    Number4(s);
  }

  /** A two-digit field written back is the text it was read from. */
  lemma Pad2OfNumber(s: string)
    requires DigitPiece(s, 2, 2)
    ensures Number(s) <= 99 && Pad2(Number(s)) == s
  {
    Number2(s);
  }

  /** A four-digit field written back is the text it was read from. */
  lemma Pad4OfNumber(s: string)
    requires DigitPiece(s, 4, 4)
    ensures Number(s) <= 9999 && Pad4(Number(s)) == s
  {
    Number4(s);
    Pad2OfNumber(s[..2]);
    Pad2OfNumber(s[2..]);
    var hi, lo := Number(s[..2]), Number(s[2..]);
    assert (hi * 100 + lo) / 100 == hi && (hi * 100 + lo) % 100 == lo;
    assert s == s[..2] + s[2..];
  }

  /** `strptime` undoes `strftime` under the same format. */
  lemma StrptimeStrftime(layout: Layout, dt: DateTime)
    requires WellFormedLayout(layout) && Valid(dt)
    ensures Strptime(layout, Strftime(layout, dt)) == Some(dt)
  {
    var p := Pieces(Pad4(dt.year), Pad2(dt.month), Pad2(dt.day), GapText(layout.gap),
                    Pad2(dt.hour), Pad2(dt.minute), Pad2(dt.second));
    Pad4Reads(dt.year);
    Pad2Reads(dt.month);
    Pad2Reads(dt.day);
    Pad2Reads(dt.hour);
    Pad2Reads(dt.minute);
    Pad2Reads(dt.second);
    assert GapPiece(layout.gap, p.gap) by {
      if layout.gap.Letter? {
        assert SameLetter(p.gap[0], layout.gap.letter);
      }
    }
    MatchPieces(layout, p);
    assert ValuesOf(layout, p) == dt;
  }

  /** Parsing the rewritten text with the output format recovers the very
      date and time the camera text held. */
  lemma FormatRoundTrip(s: string)
    requires FormatTimestamp(s).Some?
    ensures Strptime(OutputLayout, FormatTimestamp(s).value) == Strptime(CameraLayout, s)
  {
    var dt := Strptime(CameraLayout, s).value;
    StrptimeStrftime(OutputLayout, dt);
  }

  /** Camera text laid out from pieces (any whitespace run as gap, one- or
      two-digit fields) is accepted exactly when its fields form a valid date
      and time, and is then rewritten with every field zero-padded. */
  lemma FormatPieces(p: Pieces)
    requires WellFormedPieces(CameraLayout, p)
    ensures FormatTimestamp(Compose(CameraLayout, p)).Some? <==> Valid(ValuesOf(CameraLayout, p))
    ensures Valid(ValuesOf(CameraLayout, p)) ==>
              FormatTimestamp(Compose(CameraLayout, p)) == Some(Strftime(OutputLayout, ValuesOf(CameraLayout, p)))
  {
    MatchPieces(CameraLayout, p);
    assert |Compose(CameraLayout, p)| > 0;
  }

  /** Canonical camera text: 19 characters, digits except for the separators. */
  predicate CanonicalCamera(s: string)
  {
    && |s| == 19
    && AllDigits(s[..4]) && s[4] == ':'
    && AllDigits(s[5..7]) && s[7] == ':'
    && AllDigits(s[8..10]) && s[10] == ' '
    && AllDigits(s[11..13]) && s[13] == ':'
    && AllDigits(s[14..16]) && s[16] == ':'
    && AllDigits(s[17..19])
  }

  function CanonicalPieces(s: string): Pieces
    requires |s| == 19
  {
    Pieces(s[..4], s[5..7], s[8..10], s[10..11], s[11..13], s[14..16], s[17..19])
  }

  function FieldsAt(s: string): DateTime
    requires CanonicalCamera(s)
  {
    DateTime(Number(s[..4]), Number(s[5..7]), Number(s[8..10]), Number(s[11..13]), Number(s[14..16]), Number(s[17..19]))
  }

  /** A 19-character text cut at the separator positions of canonical camera text. */
  lemma CanonicalSplit(s: string)
    requires |s| == 19
    ensures s == s[..4] + ([s[4]] + (s[5..7] + ([s[7]] + (s[8..10] + (s[10..11]
      + (s[11..13] + ([s[13]] + (s[14..16] + ([s[16]] + (s[17..19] + ""))))))))))
  {
    assert s[17..19] + "" == s[17..];
    assert s[16..] == [s[16]] + s[17..];
    assert s[14..] == s[14..16] + s[16..];
    assert s[13..] == [s[13]] + s[14..];
    assert s[11..] == s[11..13] + s[13..];
    assert s[10..] == s[10..11] + s[11..];
    assert s[8..] == s[8..10] + s[10..];
    assert s[7..] == [s[7]] + s[8..];
    assert s[5..] == s[5..7] + s[7..];
    assert s[4..] == [s[4]] + s[5..];
    assert s == s[..4] + s[4..];
  }

  lemma CanonicalIsComposed(s: string)
    requires CanonicalCamera(s)
    ensures WellFormedPieces(CameraLayout, CanonicalPieces(s))
    ensures Compose(CameraLayout, CanonicalPieces(s)) == s
    ensures ValuesOf(CameraLayout, CanonicalPieces(s)) == FieldsAt(s)
  {
    var p := CanonicalPieces(s);
    assert IsSpace(p.gap[0]);
    CanonicalSplit(s);
  }

  /** The output text assembled from the pieces of canonical camera text. */
  lemma OutputOfCanonical(s: string)
    requires CanonicalCamera(s)
    ensures Compose(OutputLayout, Pieces(s[..4], s[5..7], s[8..10], "T", s[11..13], s[14..16], s[17..19]))
            == s[..4] + "-" + s[5..7] + "-" + s[8..10] + "T" + s[11..19] + "Z"
  {
    assert s[11..19] == s[11..13] + [s[13]] + s[14..16] + [s[16]] + s[17..19];
  }

  /** Canonical camera text with a valid date and time is rewritten with the
      same digits, `-` in place of the two date separators, `T` in place of
      the space and `Z` appended. With an invalid date or time it is refused. */
  lemma FormatCanonical(s: string)
    requires CanonicalCamera(s)
    ensures FormatTimestamp(s).Some? <==> Valid(FieldsAt(s))
    ensures Valid(FieldsAt(s)) ==>
              FormatTimestamp(s) == Some(s[..4] + "-" + s[5..7] + "-" + s[8..10] + "T" + s[11..19] + "Z")
  {
    CanonicalIsComposed(s);
    var p := CanonicalPieces(s);
    FormatPieces(p);
    if Valid(FieldsAt(s)) {
      Pad4OfNumber(p.year);
      Pad2OfNumber(p.month);
      Pad2OfNumber(p.day);
      Pad2OfNumber(p.hour);
      Pad2OfNumber(p.minute);
      Pad2OfNumber(p.second);
      assert Strftime(OutputLayout, FieldsAt(s))
             == Compose(OutputLayout, Pieces(p.year, p.month, p.day, "T", p.hour, p.minute, p.second));
      OutputOfCanonical(s);
    }
  }

  /** Month `00` and month `13` are refused, whatever follows. */
  lemma RejectsMonthOutOfRange(s: string)
    requires |s| >= 8 && s[4] == ':'
    requires s[5..8] == "00:" || s[5..8] == "13:"
    ensures FormatTimestamp(s) == None
  {
    var rest := s[5..];
    assert rest[..2] == s[5..8][..2] && rest[2] == ':';
    DigitRunOf(rest[..2], rest[2..]);
    assert rest[..2] + rest[2..] == rest;
    Number2(rest[..2]);
  }

  /** The all-zero placeholder some cameras write is refused. */
  lemma RejectsPlaceholder()
    ensures FormatTimestamp("0000:00:00 00:00:00") == None
  {
    RejectsMonthOutOfRange("0000:00:00 00:00:00");
  }

  /** A field written without zero padding. */
  function Unpadded(n: int): string
    requires 0 <= n <= 99
  {
    if n < 10 then [DigitChar(n)] else Pad2(n)
  }

  lemma UnpaddedReads(n: int)
    requires 0 <= n <= 99
    ensures DigitPiece(Unpadded(n), 1, 2) && Number(Unpadded(n)) == n
  {
    if n < 10 {
      DigitCharValue(n);
      assert Unpadded(n)[..0] == [];
    } else {
      Pad2Reads(n);
    }
  }

  /** Camera text of a date and time with no field zero-padded except the year. */
  function ShortCameraText(dt: DateTime): string
    requires Valid(dt)
  {
    Compose(CameraLayout, Pieces(Pad4(dt.year), Unpadded(dt.month), Unpadded(dt.day), " ",
                                 Unpadded(dt.hour), Unpadded(dt.minute), Unpadded(dt.second)))
  }

  /** Fields written with a single digit are accepted and come out
      zero-padded, exactly as their two-digit spelling would. */
  lemma AcceptsShortFields(dt: DateTime)
    requires Valid(dt)
    ensures FormatTimestamp(ShortCameraText(dt)) == Some(Strftime(OutputLayout, dt))
  {
    var p := Pieces(Pad4(dt.year), Unpadded(dt.month), Unpadded(dt.day), " ",
                    Unpadded(dt.hour), Unpadded(dt.minute), Unpadded(dt.second));
    Pad4Reads(dt.year);
    UnpaddedReads(dt.month);
    UnpaddedReads(dt.day);
    UnpaddedReads(dt.hour);
    UnpaddedReads(dt.minute);
    UnpaddedReads(dt.second);
    assert IsSpace(p.gap[0]);
    FormatPieces(p);
    assert ValuesOf(CameraLayout, p) == dt;
  }

  /** The zero-padded and unpadded spellings of the example field values. */
  lemma ExamplePads()
    ensures Pad4(2023) == "2023" && Pad4(2024) == "2024"
    ensures Pad2(0) == "00" && Pad2(1) == "01" && Pad2(2) == "02" && Pad2(3) == "03" && Pad2(5) == "05"
    ensures Pad2(7) == "07" && Pad2(9) == "09" && Pad2(10) == "10" && Pad2(29) == "29"
    ensures Unpadded(1) == "1" && Unpadded(3) == "3" && Unpadded(5) == "5" && Unpadded(7) == "7" && Unpadded(9) == "9"
  {
    assert Pad2(20) == "20" && Pad2(23) == "23" && Pad2(24) == "24";
  }

  /** Example texts laid out from their pieces. */
  lemma ShortCameraLayout()
    ensures Compose(CameraLayout, Pieces("2023", "5", "1", " ", "7", "3", "9")) == "2023:5:1 7:3:9"
  {
  }

  lemma ShortOutputLayout()
    ensures Compose(OutputLayout, Pieces("2023", "05", "01", "T", "07", "03", "09")) == "2023-05-01T07:03:09Z"
  {
  }

  /** For example `2023:5:1 7:3:9` is accepted and rewritten as `2023-05-01T07:03:09Z`. */
  lemma ShortFieldsExample()
    ensures FormatTimestamp("2023:5:1 7:3:9") == Some("2023-05-01T07:03:09Z")
  {
    var dt := DateTime(2023, 5, 1, 7, 3, 9);
    ExamplePads();
    ShortCameraLayout();
    ShortOutputLayout();
    assert ShortCameraText(dt) == Compose(CameraLayout, Pieces("2023", "5", "1", " ", "7", "3", "9"));
    assert Strftime(OutputLayout, dt) == Compose(OutputLayout, Pieces("2023", "05", "01", "T", "07", "03", "09"));
    AcceptsShortFields(dt);
  }

  /** Field values that fit the widths of canonical camera text. */
  predicate Printable(dt: DateTime)
  {
    && 0 <= dt.year <= 9999 && 0 <= dt.month <= 99 && 0 <= dt.day <= 99
    && 0 <= dt.hour <= 99 && 0 <= dt.minute <= 99 && 0 <= dt.second <= 99
  }

  /** Canonical camera text of any field values, valid or not. */
  function CameraText(dt: DateTime): string
    requires Printable(dt)
  {
    Compose(CameraLayout, Pieces(Pad4(dt.year), Pad2(dt.month), Pad2(dt.day), " ",
                                 Pad2(dt.hour), Pad2(dt.minute), Pad2(dt.second)))
  }

  /** Canonical camera text is accepted exactly when its fields form a real
      date and time (leap years, month lengths, no month 0 or 13, no second
      60); it is then rewritten as the output text of the same fields. */
  lemma FormatCameraText(dt: DateTime)
    requires Printable(dt)
    ensures FormatTimestamp(CameraText(dt)).Some? <==> Valid(dt)
    ensures Valid(dt) ==> FormatTimestamp(CameraText(dt)) == Some(Strftime(OutputLayout, dt))
  {
    var p := Pieces(Pad4(dt.year), Pad2(dt.month), Pad2(dt.day), " ",
                    Pad2(dt.hour), Pad2(dt.minute), Pad2(dt.second));
    Pad4Reads(dt.year);
    Pad2Reads(dt.month);
    Pad2Reads(dt.day);
    Pad2Reads(dt.hour);
    Pad2Reads(dt.minute);
    Pad2Reads(dt.second);
    assert IsSpace(p.gap[0]);
    FormatPieces(p);
    assert ValuesOf(CameraLayout, p) == dt;
  }

  /** February 29 is accepted exactly in leap years: years divisible by 4,
      except centuries not divisible by 400. */
  lemma LeapDay(year: int)
    requires 1 <= year <= 9999
    ensures FormatTimestamp(CameraText(DateTime(year, 2, 29, 10, 0, 0))).Some? <==> IsLeapYear(year)
  {
    FormatCameraText(DateTime(year, 2, 29, 10, 0, 0));
  }

  /** The leap-day example texts laid out from their pieces. */
  lemma LeapDayCameraLayout()
    ensures Compose(CameraLayout, Pieces("2024", "02", "29", " ", "10", "00", "00")) == "2024:02:29 10:00:00"
  {
  }

  lemma LeapDayOutputLayout()
    ensures Compose(OutputLayout, Pieces("2024", "02", "29", "T", "10", "00", "00")) == "2024-02-29T10:00:00Z"
  {
  }

  lemma NonLeapDayLayout()
    ensures Compose(CameraLayout, Pieces("2023", "02", "29", " ", "10", "00", "00")) == "2023:02:29 10:00:00"
  {
  }

  /** For example `2024:02:29 10:00:00` is accepted and rewritten as `2024-02-29T10:00:00Z` ... */
  lemma LeapDayExampleAccepted()
    ensures FormatTimestamp("2024:02:29 10:00:00") == Some("2024-02-29T10:00:00Z")
  {
    var dt := DateTime(2024, 2, 29, 10, 0, 0);
    ExamplePads();
    LeapDayCameraLayout();
    LeapDayOutputLayout();
    assert CameraText(dt) == Compose(CameraLayout, Pieces("2024", "02", "29", " ", "10", "00", "00"));
    assert Strftime(OutputLayout, dt) == Compose(OutputLayout, Pieces("2024", "02", "29", "T", "10", "00", "00"));
    FormatCameraText(dt);
  }

  /** ... and `2023:02:29 10:00:00` is refused. */
  lemma LeapDayExampleRejected()
    ensures FormatTimestamp("2023:02:29 10:00:00") == None
  {
    var dt := DateTime(2023, 2, 29, 10, 0, 0);
    ExamplePads();
    NonLeapDayLayout();
    assert CameraText(dt) == Compose(CameraLayout, Pieces("2023", "02", "29", " ", "10", "00", "00"));
    assert !Valid(dt);
    FormatCameraText(dt);
  }
}
