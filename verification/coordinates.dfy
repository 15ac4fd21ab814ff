/** Decimal degrees from the GPS sub-block. The arithmetic is exact (`real`);
    every lookup that would raise in the original becomes a `Fault`, which
    nothing catches and which therefore ends the whole run. */
module Coordinates {
  import opened Options
  import opened Tags

  /** Why reading the GPS sub-block raised. */
  datatype Fault =
    | NotAMapping            // the GPS value is truthy but cannot be searched for codes
    | NotATriple(code: int)  // the value under `code` does not unpack into three numbers
    | MissingKey(code: int)  // a hemisphere reference code is absent

  const LatitudeCode: int := 2
  const LatitudeRefCode: int := 1
  const LongitudeCode: int := 4
  const LongitudeRefCode: int := 3

  /** Degrees, minutes and seconds as one decimal-degree value. */
  function Degrees(d: real, m: real, s: real): (r: real)
    ensures d >= 0.0 && m >= 0.0 && s >= 0.0 ==> r >= d
    ensures d == 0.0 && m == 0.0 && s == 0.0 ==> r == 0.0
  {
    d + m / 60.0 + s / 3600.0
  }

  /** One coordinate from the value under `code`: it converts exactly when the
      value is a triple, is then never below its degrees for non-negative
      parts, and otherwise raises naming `code`. */
  function ConvertToDegrees(code: int, v: GpsValue): (r: Result<real, Fault>)
    ensures r.Ok? <==> v.Dms?
    ensures r.Err? ==> r.error == NotATriple(code)
    ensures r.Ok? && v.degrees >= 0.0 && v.minutes >= 0.0 && v.seconds >= 0.0 ==> r.value >= v.degrees
  {
    match v
    case Dms(d, m, s) => Ok(Degrees(d, m, s))
    case _ => Err(NotATriple(code))
  }

  /** Latitude and longitude as the reader returns them; `None` is Python's `None`. */
  datatype LatLon = LatLon(lat: Option<real>, lon: Option<real>)

  /** The value `sign` times the triple under `code`, with `sign` fixed by
      whether the reference under `refCode` is the negative hemisphere `neg`. */
  ghost predicate SignedFrom(gps: map<int, GpsValue>, code: int, refCode: int, neg: string, x: real)
    requires code in gps && gps[code].Dms? && refCode in gps
  {
    var v := gps[code];
    var mag := Degrees(v.degrees, v.minutes, v.seconds);
    if gps[refCode] == Ref(neg) then x == -mag else x == mag
  }

  /** Reads both coordinates from the GPS value of a tag map (`None` when the
      map has no GPS entry). An absent, empty or false value, or a block
      without both coordinate codes, gives no coordinates; otherwise both are
      converted and negated for the southern and western hemispheres, and a
      malformed triple or a missing reference raises. */
  function GetLatLon(gps: Option<TagValue>): (r: Result<LatLon, Fault>)
    ensures r.Ok? ==> (r.value.lat.Some? <==> r.value.lon.Some?)
    ensures r.Ok? && r.value.lat.Some? ==>
              gps.Some? && gps.value.GpsBlock?
              && var m := gps.value.entries;
              && LatitudeCode in m && m[LatitudeCode].Dms? && LatitudeRefCode in m
              && LongitudeCode in m && m[LongitudeCode].Dms? && LongitudeRefCode in m
              && SignedFrom(m, LatitudeCode, LatitudeRefCode, "S", r.value.lat.value)
              && SignedFrom(m, LongitudeCode, LongitudeRefCode, "W", r.value.lon.value)
  {
    if gps.None? || !Truthy(gps.value) then Ok(LatLon(None, None))
    else
      match gps.value
      case GpsBlock(m) =>
        if LatitudeCode in m && LongitudeCode in m then
          var lat :- ConvertToDegrees(LatitudeCode, m[LatitudeCode]);
          var lon :- ConvertToDegrees(LongitudeCode, m[LongitudeCode]);
          if LatitudeRefCode !in m then Err(MissingKey(LatitudeRefCode))
          else
            var lat' := if m[LatitudeRefCode] == Ref("S") then -lat else lat;
            if LongitudeRefCode !in m then Err(MissingKey(LongitudeRefCode))
            else
              var lon' := if m[LongitudeRefCode] == Ref("W") then -lon else lon;
              Ok(LatLon(Some(lat'), Some(lon')))
        else Ok(LatLon(None, None))
      case _ => Err(NotAMapping)
  }

  /** Both coordinate codes are present in a truthy GPS block. */
  predicate HasBothCodes(gps: Option<TagValue>)
  {
    gps.Some? && Truthy(gps.value) && gps.value.GpsBlock?
    && LatitudeCode in gps.value.entries && LongitudeCode in gps.value.entries
  }

  /** No coordinates, and no raise, exactly when the GPS value is absent,
      false or empty, or lacks one of the two coordinate codes. */
  lemma NoCoordinatesIff(gps: Option<TagValue>)
    ensures GetLatLon(gps) == Ok(LatLon(None, None))
            <==> gps.None? || !Truthy(gps.value) || (gps.value.GpsBlock? && !HasBothCodes(gps))
  {
  }

  /** The reader raises exactly when the value is a truthy non-mapping, or
      when both codes are present but a triple is malformed or a reference
      code is missing. */
  lemma RaisesIff(gps: Option<TagValue>)
    ensures GetLatLon(gps).Err?
            <==> gps.Some? && Truthy(gps.value)
                 && (!gps.value.GpsBlock?
                     || (HasBothCodes(gps)
                         && var m := gps.value.entries;
                         (!m[LatitudeCode].Dms? || !m[LongitudeCode].Dms? || LatitudeRefCode !in m || LongitudeRefCode !in m)))
  {
  }

  /** With non-negative triples, the latitude is non-positive exactly under
      reference "S" and non-negative otherwise; the longitude likewise with
      "W". Any reference other than "S"/"W" leaves the sign alone. */
  lemma HemisphereSigns(gps: Option<TagValue>)
    requires GetLatLon(gps).Ok? && GetLatLon(gps).value.lat.Some?
    requires var m := gps.value.entries;
             m[LatitudeCode].degrees >= 0.0 && m[LatitudeCode].minutes >= 0.0 && m[LatitudeCode].seconds >= 0.0
             && m[LongitudeCode].degrees >= 0.0 && m[LongitudeCode].minutes >= 0.0 && m[LongitudeCode].seconds >= 0.0
    ensures var m := gps.value.entries;
            var c := GetLatLon(gps).value;
            && (m[LatitudeRefCode] == Ref("S") ==> c.lat.value <= 0.0)
            && (m[LatitudeRefCode] != Ref("S") ==> c.lat.value >= 0.0)
            && (m[LongitudeRefCode] == Ref("W") ==> c.lon.value <= 0.0)
            && (m[LongitudeRefCode] != Ref("W") ==> c.lon.value >= 0.0)
  {
  }
}
