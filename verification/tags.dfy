/** Tag blocks as the image library hands them over, and the step that keeps
    only the tags whose numeric code has a known name. Image decoding itself is
    an oracle: each file comes with what the library would report for it. */
module Tags {
  import opened Options
  import opened Names

  /** A value inside the GPS sub-block: a degree/minute/second triple, a
      reference text such as "N" or "W", or anything else. */
  datatype GpsValue = Dms(degrees: real, minutes: real, seconds: real) | Ref(text: string) | OtherGps

  /** A tag value: text, the GPS sub-block (small integer codes to values), or
      some other object of which only its truth value matters here. */
  datatype TagValue = Text(text: string) | GpsBlock(entries: map<int, GpsValue>) | Opaque(truthy: bool)

  /** Python truth value of a tag value: empty texts and empty mappings are false. */
  predicate Truthy(v: TagValue)
  {
    match v
    case Text(t) => t != []
    case GpsBlock(m) => |m| > 0
    case Opaque(b) => b
  }

  /** Tags keyed by their human-readable names. */
  type TagMap = map<string, TagValue>

  /** What opening one file yields: the decoder raised, the file has no tag
      block, or the raw block as (code, value) pairs in the library's order. */
  datatype Decoded = DecodeError | NoTagBlock | TagBlock(items: seq<(int, TagValue)>)

  /** `i` is a position of `items` whose code has the name `name` in `known`. */
  ghost predicate NamedAt(items: seq<(int, TagValue)>, known: map<int, string>, i: int, name: string)
  {
    0 <= i < |items| && items[i].0 in known && known[items[i].0] == name
  }

  /** The block restricted to known codes and re-keyed by name. Pairs are
      visited in order, so when two codes share a name the later pair wins.
      A name is present exactly when some pair carries a code with that name,
      and its value is the one of the last such pair. */
  function FilterTags(items: seq<(int, TagValue)>, known: map<int, string>): (r: TagMap)
    ensures forall name :: name in r <==> exists i :: NamedAt(items, known, i, name)
    ensures forall name, i :: NamedAt(items, known, i, name) && (forall j :: i < j < |items| ==> !NamedAt(items, known, j, name))
                              ==> name in r && r[name] == items[i].1
    decreases |items|
  {
    if items == [] then map[]
    else
      var init := items[..|items| - 1];
      var m := FilterTags(init, known);
      assert forall i, name :: 0 <= i < |init| ==> (NamedAt(init, known, i, name) <==> NamedAt(items, known, i, name));
      var (code, value) := items[|items| - 1];
      if code in known then
        assert NamedAt(items, known, |items| - 1, known[code]);
        m[known[code] := value]
      else m
  }

  /** The tag map of one file, or `None` when it has none. The container
      format's decoder is never available, so its files always come out
      `None`; a decoder error and an absent block do too. */
  function ExtractTags(name: string, decoded: Decoded, known: map<int, string>): (r: Option<TagMap>)
    ensures IsHeic(name) ==> r == None
    ensures r.Some? <==> !IsHeic(name) && decoded.TagBlock?
  {
    if IsHeic(name) then None
    else
      match decoded
      case DecodeError => None
      case NoTagBlock => None
      case TagBlock(items) => Some(FilterTags(items, known))
  }

  /** Keys of a filtered block are known names whatever the block holds, and
      the block loses nothing with a known code. */
  lemma FilterTagsKeys(items: seq<(int, TagValue)>, known: map<int, string>)
    ensures FilterTags(items, known).Keys <= known.Values
    ensures forall i :: 0 <= i < |items| && items[i].0 in known ==> known[items[i].0] in FilterTags(items, known)
  {
    var r := FilterTags(items, known);
    forall name | name in r
      ensures name in known.Values
    {
      var i :| NamedAt(items, known, i, name);
    }
    forall i | 0 <= i < |items| && items[i].0 in known
      ensures known[items[i].0] in r
    {
      assert NamedAt(items, known, i, known[items[i].0]);
    }
  }

  /** Every name in an extracted tag map is a known tag name. */
  lemma ExtractedNamesKnown(name: string, decoded: Decoded, known: map<int, string>)
    requires ExtractTags(name, decoded, known).Some?
    ensures ExtractTags(name, decoded, known).value.Keys <= known.Values
  {
    FilterTagsKeys(decoded.items, known);
  }
}
