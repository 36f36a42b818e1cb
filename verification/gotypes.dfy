/** Go values whose nil and empty forms differ: maps and slices.  `==` on these
    types is Go's `reflect.DeepEqual`, which tells a nil map from an empty one. */
module GoTypes {

  datatype Option<+T> = None | Some(value: T) {
    function GetOr(default: T): T {
      if None? then default else value
    }
  }

  datatype Result<+T, +E> = Ok(value: T) | Err(error: E)

  datatype GoSlice<+T> = NilSlice | Slice(elems: seq<T>) {
    function Elems(): seq<T> {
      if NilSlice? then [] else elems
    }
  }

  datatype StringMap = NilMap | Map(entries: map<string, string>) {
    /** What ranging over the map sees. */
    function Content(): map<string, string> {
      if NilMap? then map[] else entries
    }
  }

  /** The comparison used on live and expected metadata. */
  predicate AreStringMapsEqual(one: StringMap, two: StringMap)
    ensures AreStringMapsEqual(one, two) <==> one.Content() == two.Content()
  {
    var oneEmpty := |one.Content()| == 0;
    var twoEmpty := |two.Content()| == 0;
    (oneEmpty && twoEmpty) || one == two
  }

  /** Later maps win; the result is never nil unless no list was given. */
  function Combined(maps: seq<StringMap>): map<string, string> {
    if maps == [] then map[]
    else Combined(maps[..|maps| - 1]) + maps[|maps| - 1].Content()
  }

  method CombineStringMaps(maps: GoSlice<StringMap>) returns (res: StringMap)
    ensures res == if maps.NilSlice? then NilMap else Map(Combined(maps.elems))
  {
    if maps.NilSlice? {
      return NilMap;
    }
    var out: map<string, string> := map[];
    var idx := 0;
    while idx < |maps.elems|
      invariant 0 <= idx <= |maps.elems|
      invariant out == Combined(maps.elems[..idx])
    {
      var curr := maps.elems[idx];
      assert maps.elems[..idx + 1][..idx] == maps.elems[..idx];
      if curr.Map? {
        out := CopyInto(out, curr.entries);
      }
      idx := idx + 1;
    }
    assert maps.elems[..idx] == maps.elems;
    res := Map(out);
  }

  /** `for k, v := range from { into[k] = v }`, in whatever order the range runs. */
  method CopyInto(into: map<string, string>, from: map<string, string>) returns (res: map<string, string>)
    ensures res == into + from
  {
    res := into;
    var pending := from.Keys;
    while pending != {}
      invariant pending <= from.Keys
      invariant res == into + map k | k in from && k !in pending :: from[k]
    {
      var k :| k in pending;
      res := res[k := from[k]];
      pending := pending - {k};
    }
    assert from == map k | k in from && k !in pending :: from[k];
  }

  /** Fills an absent or empty source afresh, otherwise extends it. */
  method AppendStringMap(src: StringMap, add: StringMap) returns (res: StringMap)
    ensures res == Map(src.Content() + add.Content())
  {
    var out: map<string, string> := map[];
    if |src.Content()| > 0 {
      out := src.Content();
    }
    out := CopyInto(out, add.Content());
    res := Map(out);
  }

  function NormalizeMap(m: StringMap): (r: StringMap)
    ensures r == Map(m.Content())
  {
    if |m.Content()| == 0 then Map(map[]) else m
  }

  /** How the API server hands a map or a slice back: empty ones are omitted. */
  function OmitEmpty(m: StringMap): (r: StringMap)
    ensures r.Content() == m.Content()
    ensures r.Map? ==> r.entries != map[]
  {
    if m.Content() == map[] then NilMap else m
  }

  function OmitEmptySlice<T>(s: GoSlice<T>): (r: GoSlice<T>)
    ensures r.Elems() == s.Elems()
  {
    if |s.Elems()| == 0 then NilSlice else s
  }
}
