/** The camera timestamp `YYYY:MM:DD HH:MM:SS` rewritten as
    `YYYY-MM-DDTHH:MM:SSZ`. Parsing follows the regular expression that
    Python's `strptime` builds from a format: fixed-width year, one- or
    two-digit month, day, hour, minute and second with bounded values, a run of
    whitespace where the format has a space, and nothing left over. The
    calendar check of the `datetime` constructor comes after. */
module Timestamps {
  import opened Options
  import opened Names

  datatype DateTime = DateTime(year: int, month: int, day: int, hour: int, minute: int, second: int)

  predicate IsDigit(c: char)
  {
    '0' <= c <= '9'
  }

  predicate AllDigits(s: string)
  {
    forall i | 0 <= i < |s| :: IsDigit(s[i])
  }

  function DigitValue(c: char): nat
    requires IsDigit(c)
  {
    c as int - '0' as int
  }

  function DigitChar(n: int): char
    requires 0 <= n <= 9
  {
    ('0' as int + n) as char
  }

  /** Decimal value of a digit string, as `int()` reads it. */
  function Number(s: string): nat
    requires AllDigits(s)
    decreases |s|
  {
    if s == [] then 0 else Number(s[..|s| - 1]) * 10 + DigitValue(s[|s| - 1])
  }

  /** Whitespace as a `\s` of a Python text pattern matches it. */
  predicate IsSpace(c: char)
  {
    var k := c as int;
    (9 <= k <= 13) || (28 <= k <= 32) || k == 0x85 || k == 0xA0 || k == 0x1680
    || (0x2000 <= k <= 0x200A) || k == 0x2028 || k == 0x2029 || k == 0x202F || k == 0x205F || k == 0x3000
  }

  /** Length of the longest prefix of digits. */
  function DigitRun(s: string): (n: nat)
    ensures n <= |s| && AllDigits(s[..n])
    ensures n < |s| ==> !IsDigit(s[n])
    decreases |s|
  {
    if s != [] && IsDigit(s[0]) then
      var k := DigitRun(s[1..]);
      assert s[..k + 1] == [s[0]] + s[1..][..k];
      1 + k
    else 0
  }

  /** Length of the longest prefix of whitespace. */
  function SpaceRun(s: string): (n: nat)
    ensures n <= |s| && forall i | 0 <= i < n :: IsSpace(s[i])
    ensures n < |s| ==> !IsSpace(s[n])
    decreases |s|
  {
    if s != [] && IsSpace(s[0]) then 1 + SpaceRun(s[1..]) else 0
  }

  /** A literal letter of the format matches in either case. */
  predicate SameLetter(c: char, l: char)
  {
    LowerChar(c) == LowerChar(l)
  }

  predicate MatchesText(s: string, text: string)
  {
    |s| == |text| && forall i | 0 <= i < |s| :: SameLetter(s[i], text[i])
  }

  /** What stands between the day and the hour: a space in the format (any
      run of whitespace in the text) or a literal letter. */
  datatype Gap = Whitespace | Letter(letter: char)

  /** A format of the shape `%Y<sep>%m<sep>%d<gap>%H:%M:%S<tail>`. */
  datatype Layout = Layout(dateSep: char, gap: Gap, tail: string)

  /** `%Y:%m:%d %H:%M:%S`, the camera convention. */
  const CameraLayout: Layout := Layout(':', Whitespace, "")

  /** `%Y-%m-%dT%H:%M:%SZ`, the output convention. */
  const OutputLayout: Layout := Layout('-', Letter('T'), "Z")

  /** A field value and the text after it. */
  datatype Token = Token(value: int, rest: string)

  /** `%Y` and the separator after it: exactly four digits. */
  function YearField(s: string, sep: char): Option<Token>
  {
    if |s| >= 5 && AllDigits(s[..4]) && s[4] == sep then Some(Token(Number(s[..4]), s[5..])) else None
  }

  /** `%m`, `%H` or `%M` and the separator after it: one or two digits whose
      value lies in `lo..hi`. */
  function Field(s: string, lo: int, hi: int, sep: char): Option<Token>
  {
    var n := DigitRun(s);
    if 1 <= n <= 2 && n < |s| && s[n] == sep && lo <= Number(s[..n]) <= hi
    then Some(Token(Number(s[..n]), s[n + 1..]))
    else None
  }

  function AfterGap(s: string, gap: Gap): Option<string>
  {
    match gap
    case Whitespace =>
      var k := SpaceRun(s);
      if k >= 1 then Some(s[k..]) else None
    case Letter(l) =>
      if |s| >= 1 && SameLetter(s[0], l) then Some(s[1..]) else None
  }

  /** `%d` and the gap after it: one or two digits with value `1..31`, or a
      space followed by a non-zero digit. */
  function DayField(s: string, gap: Gap): Option<Token>
  {
    if |s| >= 2 && s[0] == ' ' && '1' <= s[1] <= '9' then
      var rest :- AfterGap(s[2..], gap);
      Some(Token(DigitValue(s[1]), rest))
    else
      var n := DigitRun(s);
      if 1 <= n <= 2 && 1 <= Number(s[..n]) <= 31 then
        var rest :- AfterGap(s[n..], gap);
        Some(Token(Number(s[..n]), rest))
      else None
  }

  /** `%S` followed by the tail, which must end the text: one or two digits
      with value at most 61 (the pattern admits leap seconds). */
  function SecondsField(s: string, tail: string): Option<int>
  {
    var n := DigitRun(s);
    if 1 <= n <= 2 && Number(s[..n]) <= 61 && MatchesText(s[n..], tail) then Some(Number(s[..n])) else None
  }

  /** The pattern match alone: fields as read, before any calendar check.
      Only values inside the ranges the pattern admits come out. */
  function MatchFields(layout: Layout, s: string): (r: Option<DateTime>)
    ensures r.Some? ==> InPatternRange(r.value) && r.value.year >= 0 && r.value.hour >= 0 && r.value.minute >= 0 && r.value.second >= 0
  {
    var y :- YearField(s, layout.dateSep);
    var mo :- Field(y.rest, 1, 12, layout.dateSep);
    var d :- DayField(mo.rest, layout.gap);
    var h :- Field(d.rest, 0, 23, ':');
    var mi :- Field(h.rest, 0, 59, ':');
    var sec :- SecondsField(mi.rest, layout.tail);
    Some(DateTime(y.value, mo.value, d.value, h.value, mi.value, sec))
  }

  predicate IsLeapYear(y: int)
  {
    y % 4 == 0 && (y % 100 != 0 || y % 400 == 0)
  }

  function DaysInMonth(y: int, m: int): int
    requires 1 <= m <= 12
  {
    if m == 2 then (if IsLeapYear(y) then 29 else 28)
    else if m == 4 || m == 6 || m == 9 || m == 11 then 30
    else 31
  }

  /** What the `datetime` constructor accepts: years `1..9999`, real calendar
      days, and no leap second. */
  predicate Valid(dt: DateTime)
  {
    && 1 <= dt.year <= 9999
    && 1 <= dt.month <= 12
    && 1 <= dt.day <= DaysInMonth(dt.year, dt.month)
    && 0 <= dt.hour <= 23
    && 0 <= dt.minute <= 59
    && 0 <= dt.second <= 59
  }

  /** `strptime`: the pattern match, then the calendar check. */
  function Strptime(layout: Layout, s: string): (r: Option<DateTime>)
    ensures r.Some? ==> Valid(r.value)
  {
    var dt :- MatchFields(layout, s);
    if Valid(dt) then Some(dt) else None
  }

  function Pad2(n: int): string
    requires 0 <= n <= 99
  {
    [DigitChar(n / 10), DigitChar(n % 10)]
  }

  /** Years are written with four digits, zero-padded. */
  function Pad4(n: int): string
    requires 0 <= n <= 9999
  {
    Pad2(n / 100) + Pad2(n % 100)
  }

  function GapText(gap: Gap): string
  {
    match gap
    case Whitespace => " "
    case Letter(l) => [l]
  }

  /** The texts of the six fields and of the gap, before they are laid out. */
  datatype Pieces = Pieces(year: string, month: string, day: string, gap: string,
                           hour: string, minute: string, second: string)

  function Compose(layout: Layout, p: Pieces): string
  {
    p.year + ([layout.dateSep] + (p.month + ([layout.dateSep] + (p.day + (p.gap
      + (p.hour + ([':'] + (p.minute + ([':'] + (p.second + layout.tail))))))))))
  }

  /** `strftime`: every field zero-padded, so the text has a fixed length. */
  function Strftime(layout: Layout, dt: DateTime): (r: string)
    requires Valid(dt)
    ensures |r| == 19 + |layout.tail|
  {
    Compose(layout, Pieces(Pad4(dt.year), Pad2(dt.month), Pad2(dt.day), GapText(layout.gap),
                           Pad2(dt.hour), Pad2(dt.minute), Pad2(dt.second)))
  }

  /** The camera timestamp rewritten in the output convention, or `None` for
      an empty text or one `strptime` rejects. Never raises. */
  function FormatTimestamp(s: string): (r: Option<string>)
    ensures s == [] ==> r.None?
    ensures r.Some? <==> Strptime(CameraLayout, s).Some? && s != []
    ensures r.Some? ==> |r.value| == 20
  {
    if s == [] then None
    else
      var dt :- Strptime(CameraLayout, s);
      Some(Strftime(OutputLayout, dt))
  }

  // ---------------------------------------------------------------------
  // Reading laid-out pieces back

  predicate DigitPiece(s: string, minLen: nat, maxLen: nat)
  {
    minLen <= |s| <= maxLen && AllDigits(s)
  }

  predicate GapPiece(gap: Gap, g: string)
  {
    match gap
    case Whitespace => |g| >= 1 && forall i | 0 <= i < |g| :: IsSpace(g[i])
    case Letter(l) => |g| == 1 && SameLetter(g[0], l)
  }

  /** Separators that cannot be mistaken for digits, and a letter gap that is
      neither a digit nor a space. */
  predicate WellFormedLayout(layout: Layout)
  {
    && !IsDigit(layout.dateSep)
    && (layout.gap.Letter? ==> 'A' <= layout.gap.letter <= 'Z')
    && (layout.tail != [] ==> !IsDigit(layout.tail[0]))
  }

  predicate WellFormedPieces(layout: Layout, p: Pieces)
  {
    && DigitPiece(p.year, 4, 4)
    && DigitPiece(p.month, 1, 2)
    && DigitPiece(p.day, 1, 2)
    && GapPiece(layout.gap, p.gap)
    && DigitPiece(p.hour, 1, 2)
    && DigitPiece(p.minute, 1, 2)
    && DigitPiece(p.second, 1, 2)
  }

  function ValuesOf(layout: Layout, p: Pieces): DateTime
    requires WellFormedPieces(layout, p)
  {
    DateTime(Number(p.year), Number(p.month), Number(p.day), Number(p.hour), Number(p.minute), Number(p.second))
  }

  /** The value bounds the pattern itself enforces. */
  predicate InPatternRange(dt: DateTime)
  {
    1 <= dt.month <= 12 && 1 <= dt.day <= 31 && dt.hour <= 23 && dt.minute <= 59 && dt.second <= 61
  }
}
