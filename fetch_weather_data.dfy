/** `openmeteo/fetch_weather_data.py`: loading the grid locations (from the
    metadata collection, else from the seed file, else an integer grid) and
    the batched fetch with its retries and pauses. The file system is the
    optional text `content` of the seed file, `json.loads` is the oracle
    `jsonLoads` (None where it raises), the remote service is the scripted
    reply `remote(batch, attempt)`, and every `time.sleep(d)` is logged as `d`. */
module FetchWeatherData {
  import opened Common
  import opened Json
  import Text
  import OpenMeteo
  import WeatherRepository

  // ------------------------------------------------------------ the metadata path

  /** The filter of the comprehension over the metadata documents. */
  predicate HasCoordinates(doc: Doc)
  {
    (Get(doc, "lat") != JNull || Get(doc, "latitude") != JNull)
    && (Get(doc, "lon") != JNull || Get(doc, "longitude") != JNull)
  }

  /** `float(doc.get(a)) if doc.get(a) is not None else float(doc.get(b))`. */
  function CoordinateOf(doc: Doc, a: string, b: string): Result<real>
  {
    if Get(doc, a) != JNull then PyFloat(Get(doc, a)) else PyFloat(Get(doc, b))
  }

  /** The default grid name: `float(doc.get('lat', 0.0))`, then the same for `lon`. */
  function DefaultName(doc: Doc): Result<string>
  {
    match PyFloat(GetOr(doc, "lat", JFloat(0.0)))
    case Err(e) => Err(e)
    case Ok(a) =>
      match PyFloat(GetOr(doc, "lon", JFloat(0.0)))
      case Err(e) => Err(e)
      case Ok(b) => Ok(Text.FormatOneDecimal(a) + ", " + Text.FormatOneDecimal(b))
  }

  /** One element of the comprehension; its entries are evaluated name, lat, lon. */
  function MetadataPoint(doc: Doc): Result<Doc>
  {
    var name := if Truthy(Get(doc, "name")) then Ok(Get(doc, "name"))
                else match DefaultName(doc) case Err(e) => Err(e) case Ok(n) => Ok(JStr(n));
    match name
    case Err(e) => Err(e)
    case Ok(n) =>
      match CoordinateOf(doc, "lat", "latitude")
      case Err(e) => Err(e)
      case Ok(lat) =>
        match CoordinateOf(doc, "lon", "longitude")
        case Err(e) => Err(e)
        case Ok(lon) => Ok(map["name" := n, "lat" := JFloat(lat), "lon" := JFloat(lon)])
  }

  /** The comprehension over the metadata: the first element that raises
      ends it with that exception, which leaves `load_grid_coordinates`. */
  function MetadataPoints(metadata: seq<Doc>): Result<seq<Doc>>
  {
    if metadata == [] then Ok([])
    else
      match MetadataPoints(metadata[..|metadata| - 1])
      case Err(e) => Err(e)
      case Ok(init) =>
        var doc := metadata[|metadata| - 1];
        if !HasCoordinates(doc) then Ok(init)
        else match MetadataPoint(doc)
          case Err(e) => Err(e)
          case Ok(p) => Ok(init + [p])
  }

  /** The metadata path keeps exactly the documents with a latitude and a
      longitude (under either name), converted one for one and in order. */
  lemma {:induction false} MetadataPointsShape(metadata: seq<Doc>)
    requires MetadataPoints(metadata).Ok?
    ensures var points := MetadataPoints(metadata).value;
      var kept := Filter(metadata, HasCoordinates);
      && |points| == |kept|
      && forall i :: 0 <= i < |points| ==> MetadataPoint(kept[i]) == Ok(points[i])
    decreases |metadata|
  {
    if metadata != [] {
      MetadataPointsShape(metadata[..|metadata| - 1]);
    }
  }

  /** A converted point keeps a truthy name and otherwise takes the name
      built from `lat` and `lon` at one decimal, with 0.0 for a missing key. */
  lemma MetadataPointName(doc: Doc)
    requires MetadataPoint(doc).Ok?
    ensures Truthy(Get(doc, "name")) ==> MetadataPoint(doc).value["name"] == doc["name"]
    ensures !Truthy(Get(doc, "name")) ==>
      DefaultName(doc).Ok? && MetadataPoint(doc).value["name"] == JStr(DefaultName(doc).value)
    ensures "lat" !in doc && "lon" !in doc && !Truthy(Get(doc, "name")) ==>
      MetadataPoint(doc).value["name"] == JStr("0.0, 0.0")
  {
    var lat := CoordinateOf(doc, "lat", "latitude").value;
    var lon := CoordinateOf(doc, "lon", "longitude").value;
    if Truthy(Get(doc, "name")) {
      assert MetadataPoint(doc).value == map["name" := doc["name"], "lat" := JFloat(lat), "lon" := JFloat(lon)];
    } else {
      var n := DefaultName(doc).value;
      assert MetadataPoint(doc).value == map["name" := JStr(n), "lat" := JFloat(lat), "lon" := JFloat(lon)];
      if "lat" !in doc && "lon" !in doc {
        Text.FormatOneDecimalOfInt(0);
      }
    }
  }

  /** A key present with the value None is not replaced by the default 0.0:
      a nameless document whose `lat` is None raises TypeError. */
  lemma MetadataNullLatRaises(doc: Doc)
    requires HasCoordinates(doc) && !Truthy(Get(doc, "name")) && "lat" in doc && doc["lat"] == JNull
    ensures MetadataPoint(doc).Err?
  {
  }

  // ------------------------------------------------------------ the brace scan

  /** The number of `{` minus the number of `}` in `s`. */
  function Depth(s: string): int
  {
    if s == [] then 0
    else Depth(s[..|s| - 1]) + (if s[|s| - 1] == '{' then 1 else if s[|s| - 1] == '}' then -1 else 0)
  }

  /** The text from `start` up to `e` (exclusive) has balanced braces. */
  predicate ClosesAt(content: string, start: nat, e: nat)
  {
    start < e <= |content| && Depth(content[start..e]) == 0
  }

  /** The scan loop over `content[start:]`. */
  method BraceScan(content: string) returns (json: string)
    ensures json == BraceSpan(content)
  {
    var start := Text.Find(content, '{');
    if start == -1 {
      return [];
    }
    var braceCount := 0;
    var i := start;
    while i < |content|
      invariant start <= i <= |content|
      invariant BraceSpan(content) == ScanFrom(content, start, i, braceCount)
    {
      var c := content[i];
      if c == '{' {
        braceCount := braceCount + 1;
      } else if c == '}' {
        braceCount := braceCount - 1;
        if braceCount == 0 {
          return content[start..i + 1];
        }
      }
      i := i + 1;
    }
    return [];
  }

  /** `content[start:end]` after the scan. */
  function BraceSpan(content: string): string
  {
    var start := Text.Find(content, '{');
    if start == -1 then [] else ScanFrom(content, start, start, 0)
  }

  /** The scan loop from position `i` with the count so far. */
  function ScanFrom(content: string, start: nat, i: nat, depth: int): string
    requires start <= i <= |content|
    decreases |content| - i
  {
    if i == |content| then []
    else
      var d := depth + (if content[i] == '{' then 1 else if content[i] == '}' then -1 else 0);
      if content[i] == '}' && d == 0 then content[start..i + 1]
      else ScanFrom(content, start, i + 1, d)
  }

  /** The scan gives the text from the first `{` to the `}` that brings the
      count back to zero, or nothing when there is no `{` or the count never
      returns to zero. */
  lemma BraceSpanMeaning(content: string)
    ensures var start := Text.Find(content, '{'); var r := BraceSpan(content);
      && (start == -1 ==> r == [])
      && (start >= 0 && r == [] ==> forall e :: start < e <= |content| ==> !ClosesAt(content, start, e))
      && (start >= 0 && r != [] ==>
            && start + |r| <= |content|
            && r == content[start..start + |r|]
            && ClosesAt(content, start, start + |r|)
            && forall e :: start < e < start + |r| ==> !ClosesAt(content, start, e))
  {
    var start := Text.Find(content, '{');
    if start >= 0 {
      ScanFromMeaning(content, start, start, 0);
    }
  }

  lemma {:induction false} ScanFromMeaning(content: string, start: nat, i: nat, depth: int)
    requires start < |content| && content[start] == '{' && start <= i <= |content|
    requires depth == Depth(content[start..i]) && (i > start ==> depth > 0)
    requires forall e :: start < e <= i ==> !ClosesAt(content, start, e)
    ensures var r := ScanFrom(content, start, i, depth);
      && (r == [] ==> forall e :: start < e <= |content| ==> !ClosesAt(content, start, e))
      && (r != [] ==>
            && start + |r| <= |content|
            && r == content[start..start + |r|]
            && ClosesAt(content, start, start + |r|)
            && forall e :: start < e < start + |r| ==> !ClosesAt(content, start, e))
    decreases |content| - i
  {
    if i < |content| {
      var d := depth + (if content[i] == '{' then 1 else if content[i] == '}' then -1 else 0);
      var s := content[start..i + 1];
      assert s[..|s| - 1] == content[start..i] && s[|s| - 1] == content[i];
      assert Depth(s) == d;
      if !(content[i] == '}' && d == 0) {
        ScanFromMeaning(content, start, i + 1, d);
      }
    }
  }

  // ------------------------------------------------------------ the seed path

  /** `float(x.strip())`, or None where it raises. */
  function PieceValue(piece: string): Option<real>
  {
    Text.ParseFloat(Text.Strip(piece, Text.IsSpace))
  }

  /** `[f(x) for x in pieces]`, or None at the first element where `f` raises. */
  function ParseList(pieces: seq<string>, f: string -> Option<real>): Option<seq<real>>
  {
    if pieces == [] then Some([])
    else
      match ParseList(pieces[..|pieces| - 1], f)
      case None => None
      case Some(init) =>
        match f(pieces[|pieces| - 1])
        case None => None
        case Some(x) => Some(init + [x])
  }

  lemma {:induction false} ParseListLength(pieces: seq<string>, f: string -> Option<real>)
    requires ParseList(pieces, f).Some?
    ensures |ParseList(pieces, f).value| == |pieces|
    ensures forall i :: 0 <= i < |pieces| ==> f(pieces[i]) == Some(ParseList(pieces, f).value[i])
    decreases |pieces|
  {
    if pieces != [] {
      var init := pieces[..|pieces| - 1];
      ParseListLength(init, f);
      assert forall i :: 0 <= i < |init| ==> init[i] == pieces[i];
    }
  }

  /** `grid_data[key].split(',')` parsed; None where any step raises. */
  function CoordinateList(gridData: Json, key: string): Option<seq<real>>
  {
    match Subscript(gridData, JStr(key))
    case Ok(JStr(text)) => ParseList(Text.Split(text, ','), PieceValue)
    case _ => None
  }

  /** A grid point named by its coordinates at one decimal. */
  function SeedPoint(lat: real, lon: real): Doc
  {
    map["name" := JStr(Text.FormatOneDecimal(lat) + ", " + Text.FormatOneDecimal(lon)),
        "lat" := JFloat(lat), "lon" := JFloat(lon)]
  }

  /** The seed lists cut to the shorter one and zipped into points. */
  function SeedPoints(lats: seq<real>, lons: seq<real>): (r: seq<Doc>)
    ensures |r| == Min(|lats|, |lons|)
  {
    var n := Min(|lats|, |lons|);
    seq(n, i requires 0 <= i < n => SeedPoint(lats[i], lons[i]))
  }

  /** The seed path of the `try`: read, scan, decode, split, convert. None
      wherever Python raises inside it. */
  function SeedGrid(content: Option<string>, jsonLoads: string -> Option<Json>): Option<seq<Doc>>
  {
    match content
    case None => None
    case Some(text) =>
      match jsonLoads(BraceSpan(text))
      case None => None
      case Some(gridData) =>
        match CoordinateList(gridData, "latitude")
        case None => None
        case Some(lats) =>
          match CoordinateList(gridData, "longitude")
          case None => None
          case Some(lons) => Some(SeedPoints(lats, lons))
  }

  /** The loop that builds `grid_points` and `metadata_docs` from the cut lists:
      the two lists come out equal. */
  method BuildSeedPoints(latitudes: seq<real>, longitudes: seq<real>) returns (gridPoints: seq<Doc>, metadataDocs: seq<Doc>)
    ensures gridPoints == SeedPoints(latitudes, longitudes)
    ensures metadataDocs == gridPoints
  {
    var minLength := Min(|latitudes|, |longitudes|);
    var lats := latitudes[..minLength];
    var lons := longitudes[..minLength];
    gridPoints, metadataDocs := [], [];
    for i := 0 to |lats|
      invariant |gridPoints| == i && metadataDocs == gridPoints
      invariant forall k :: 0 <= k < i ==> gridPoints[k] == SeedPoint(lats[k], lons[k])
    {
      var name := Text.FormatOneDecimal(lats[i]) + ", " + Text.FormatOneDecimal(lons[i]);
      gridPoints := gridPoints + [map["name" := JStr(name), "lat" := JFloat(lats[i]), "lon" := JFloat(lons[i])]];
      metadataDocs := metadataDocs + [map["name" := JStr(name), "lat" := JFloat(lats[i]), "lon" := JFloat(lons[i])]];
    }
  }

  /** The seed points always number at least one: `split` never gives an empty list. */
  lemma SeedGridNonEmpty(content: Option<string>, jsonLoads: string -> Option<Json>)
    requires SeedGrid(content, jsonLoads).Some?
    ensures SeedGrid(content, jsonLoads).value != []
  {
    var gridData := jsonLoads(BraceSpan(content.value)).value;
    var latText := Subscript(gridData, JStr("latitude")).value.s;
    var lonText := Subscript(gridData, JStr("longitude")).value.s;
    ParseListLength(Text.Split(latText, ','), PieceValue);
    ParseListLength(Text.Split(lonText, ','), PieceValue);
  }

  // ------------------------------------------------------------ the fallback grid

  const FallbackLatitudes := 18
  const FallbackLongitudes := 47

  /** `{'name': f"{lat}.0, {lon}.0", 'lat': float(lat), 'lon': float(lon)}`. */
  function FallbackPoint(lat: int, lon: int): Doc
  {
    map["name" := JStr(Text.IntToString(lat) + ".0, " + Text.IntToString(lon) + ".0"),
        "lat" := JFloat(lat as real), "lon" := JFloat(lon as real)]
  }

  /** Point `k` of the fallback grid, in latitude-major order. */
  function FallbackGrid(): (r: seq<Doc>)
    ensures |r| == 846
  {
    seq(FallbackLatitudes * FallbackLongitudes, k requires 0 <= k < FallbackLatitudes * FallbackLongitudes =>
      FallbackPoint(-11 + k / FallbackLongitudes, 95 + k % FallbackLongitudes))
  }

  /** Latitudes -11 to 6 and longitudes 95 to 141, both inclusive, with
      every pair present exactly once at position (lat + 11) * 47 + (lon - 95). */
  lemma FallbackGridCovers(lat: int, lon: int)
    requires -11 <= lat <= 6 && 95 <= lon <= 141
    ensures var k := (lat + 11) * 47 + (lon - 95);
      0 <= k < 846 && FallbackGrid()[k] == FallbackPoint(lat, lon)
  {
    var k := (lat + 11) * 47 + (lon - 95);
    assert k / 47 == lat + 11 && k % 47 == lon - 95;
  }

  lemma FallbackGridBounds(k: nat)
    requires k < 846
    ensures var p := FallbackGrid()[k];
      exists lat: int, lon: int :: -11 <= lat <= 6 && 95 <= lon <= 141 && p == FallbackPoint(lat, lon)
  {
    var lat, lon := -11 + k / 47, 95 + k % 47;
    assert FallbackGrid()[k] == FallbackPoint(lat, lon);
  }

  /** A fallback name is the seed-path name of the same integral coordinates. */
  lemma FallbackPointIsSeedPoint(lat: int, lon: int)
    ensures FallbackPoint(lat, lon) == SeedPoint(lat as real, lon as real)
  {
    Text.FormatOneDecimalOfInt(lat);
    Text.FormatOneDecimalOfInt(lon);
    var a, b := Text.IntToString(lat), Text.IntToString(lon);
    assert (a + ".0") + ", " + (b + ".0") == a + ".0, " + b + ".0";
  }

  /** `ps` is the fallback grid up to its length. */
  ghost predicate FallbackPrefix(ps: seq<Doc>)
  {
    |ps| <= 846 && forall k :: 0 <= k < |ps| ==> ps[k] == FallbackGrid()[k]
  }

  /** Appending the point of the next pair of the nested loops extends the prefix. */
  lemma FallbackAppend(ps: seq<Doc>, lat: int, lon: int)
    requires -11 <= lat <= 6 && 95 <= lon <= 141
    requires FallbackPrefix(ps) && |ps| == (lat + 11) * 47 + (lon - 95)
    ensures FallbackPrefix(ps + [FallbackPoint(lat, lon)])
  {
    FallbackGridCovers(lat, lon);
  }

  /** A prefix as long as the grid is the grid. */
  lemma FallbackPrefixFull(ps: seq<Doc>)
    requires FallbackPrefix(ps) && |ps| == 846
    ensures ps == FallbackGrid()
  {
  }

  /** The nested loops over `range(-11, 7)` and `range(95, 142)`. */
  method BuildFallbackGrid() returns (gridPoints: seq<Doc>, metadataDocs: seq<Doc>)
    ensures gridPoints == FallbackGrid() && metadataDocs == gridPoints
  {
    gridPoints, metadataDocs := [], [];
    for lat := -11 to 7
      invariant |gridPoints| == (lat + 11) * 47 && metadataDocs == gridPoints
      invariant FallbackPrefix(gridPoints)
    {
      for lon := 95 to 142
        invariant |gridPoints| == (lat + 11) * 47 + (lon - 95) && metadataDocs == gridPoints
        invariant FallbackPrefix(gridPoints)
      {
        var name := Text.IntToString(lat) + ".0, " + Text.IntToString(lon) + ".0";
        var point := map["name" := JStr(name), "lat" := JFloat(lat as real), "lon" := JFloat(lon as real)];
        assert point == FallbackPoint(lat, lon);
        FallbackAppend(gridPoints, lat, lon);
        gridPoints := gridPoints + [point];
        metadataDocs := metadataDocs + [map["name" := JStr(name), "lat" := JFloat(lat as real), "lon" := JFloat(lon as real)]];
      }
    }
    FallbackPrefixFull(gridPoints);
  }

  // ------------------------------------------------------------ load_grid_coordinates

  /** The points of the seed path, or of the fallback grid when it raises. */
  function SeedOrFallback(content: Option<string>, jsonLoads: string -> Option<Json>): seq<Doc>
  {
    match SeedGrid(content, jsonLoads)
    case Some(points) => points
    case None => FallbackGrid()
  }

  /** Seed and fallback points carry a name and both coordinates, so saving
      them as grid metadata writes them exactly, each with its stamp. */
  lemma SeedOrFallbackSavable(content: Option<string>, jsonLoads: string -> Option<Json>, clock: int)
    ensures var points := SeedOrFallback(content, jsonLoads);
      points != [] && WeatherRepository.GridMetadataDocs(points, clock) == Ok(WeatherRepository.StampAll(points, clock))
  {
    SeedOrFallbackReady(content, jsonLoads);
    WeatherRepository.GridMetadataOfNamedPoints(SeedOrFallback(content, jsonLoads), clock);
  }

  lemma SeedOrFallbackReady(content: Option<string>, jsonLoads: string -> Option<Json>)
    ensures var points := SeedOrFallback(content, jsonLoads);
      points != [] && forall i :: 0 <= i < |points| ==> WeatherRepository.ReadyGridPoint(points[i])
  {
    if SeedGrid(content, jsonLoads).Some? {
      SeedGridNonEmpty(content, jsonLoads);
      SeedGridReady(content, jsonLoads);
    } else {
      FallbackGridReady();
    }
  }

  lemma SeedGridReady(content: Option<string>, jsonLoads: string -> Option<Json>)
    requires SeedGrid(content, jsonLoads).Some?
    ensures forall i :: 0 <= i < |SeedGrid(content, jsonLoads).value| ==>
      WeatherRepository.ReadyGridPoint(SeedGrid(content, jsonLoads).value[i])
  {
    var gridData := jsonLoads(BraceSpan(content.value)).value;
    SeedPointsReady(CoordinateList(gridData, "latitude").value, CoordinateList(gridData, "longitude").value);
  }

  lemma SeedPointsReady(lats: seq<real>, lons: seq<real>)
    ensures forall i :: 0 <= i < |SeedPoints(lats, lons)| ==> WeatherRepository.ReadyGridPoint(SeedPoints(lats, lons)[i])
  {
    forall i | 0 <= i < |SeedPoints(lats, lons)|
      ensures WeatherRepository.ReadyGridPoint(SeedPoints(lats, lons)[i])
    {
      var p := SeedPoints(lats, lons)[i];
      assert p == SeedPoint(lats[i], lons[i]);
      assert p["name"].s != [];
    }
  }

  lemma FallbackGridReady()
    ensures forall i :: 0 <= i < |FallbackGrid()| ==> WeatherRepository.ReadyGridPoint(FallbackGrid()[i])
  {
    forall i | 0 <= i < |FallbackGrid()|
      ensures WeatherRepository.ReadyGridPoint(FallbackGrid()[i])
    {
      var p := FallbackGrid()[i];
      assert p == FallbackPoint(-11 + i / 47, 95 + i % 47);
      assert p["name"].s != [];
    }
  }

  /** What `load_grid_coordinates` returns, given what `get_grid_metadata` gave. */
  function LoadGridSpec(metadata: Result<seq<Doc>>, content: Option<string>, jsonLoads: string -> Option<Json>): Result<seq<Doc>>
  {
    var docs := if metadata.Ok? then metadata.value else [];
    if docs != [] then MetadataPoints(docs) else Ok(SeedOrFallback(content, jsonLoads))
  }

  /** `load_grid_coordinates` against the store. The metadata path leaves the
      store alone; otherwise the seed or fallback points are written back as
      grid metadata when the server is up. */
  method LoadGridCoordinates(store: WeatherRepository.Store, content: Option<string>, jsonLoads: string -> Option<Json>)
      returns (r: Result<seq<Doc>>)
    modifies store`gridMetadata, store`clock
    ensures r == LoadGridSpec(if store.online then Ok(old(store.gridMetadata)) else Err(WeatherRepository.ServerUnavailable),
                              content, jsonLoads)
    ensures store.online && old(store.gridMetadata) != [] ==> store.gridMetadata == old(store.gridMetadata)
    ensures !(store.online && old(store.gridMetadata) != []) ==>
      var points := SeedOrFallback(content, jsonLoads);
      && store.gridMetadata == (if store.online then WeatherRepository.StampAll(points, old(store.clock)) else old(store.gridMetadata))
      && store.clock == old(store.clock) + |points|
    ensures store.online && old(store.gridMetadata) != [] ==> store.clock == old(store.clock)
  {
    var metadata := store.GetGridMetadata();
    var docs := if metadata.Ok? then metadata.value else [];
    if docs != [] {
      r := MetadataGridPointsLoop(docs);
      return;
    }
    var gridPoints := SeedAndSave(store, content, jsonLoads);
    return Ok(gridPoints);
  }

  /** The seed or fallback path followed by the write-back of its metadata. */
  method SeedAndSave(store: WeatherRepository.Store, content: Option<string>, jsonLoads: string -> Option<Json>)
      returns (gridPoints: seq<Doc>)
    modifies store`gridMetadata, store`clock
    ensures gridPoints == SeedOrFallback(content, jsonLoads)
    ensures store.gridMetadata == if store.online then WeatherRepository.StampAll(gridPoints, old(store.clock)) else old(store.gridMetadata)
    ensures store.clock == old(store.clock) + |gridPoints|
  {
    var metadataDocs;
    gridPoints, metadataDocs := LoadSeedOrFallback(content, jsonLoads);
    SeedOrFallbackSavable(content, jsonLoads, store.clock);
    if metadataDocs != [] {
      var _ := store.SaveGridMetadata(Some(metadataDocs));
    }
  }

  /** The `try` of the seed path and its `except` with the fallback grid. */
  method LoadSeedOrFallback(content: Option<string>, jsonLoads: string -> Option<Json>)
      returns (gridPoints: seq<Doc>, metadataDocs: seq<Doc>)
    ensures gridPoints == SeedOrFallback(content, jsonLoads) && metadataDocs == gridPoints
  {
    if content.Some? {
      var text := BraceScan(content.value);
      var gridData := jsonLoads(text);
      if gridData.Some? {
        var lats := CoordinateList(gridData.value, "latitude");
        if lats.Some? {
          var lons := CoordinateList(gridData.value, "longitude");
          if lons.Some? {
            gridPoints, metadataDocs := BuildSeedPoints(lats.value, lons.value);
            return;
          }
        }
      }
    }
    gridPoints, metadataDocs := BuildFallbackGrid();
  }

  /** The comprehension of the metadata path, element by element. */
  method MetadataGridPointsLoop(metadata: seq<Doc>) returns (r: Result<seq<Doc>>)
    ensures r == MetadataPoints(metadata)
  {
    var points: seq<Doc> := [];
    for i := 0 to |metadata|
      invariant MetadataPoints(metadata[..i]) == Ok(points)
    {
      assert metadata[..i + 1][..i] == metadata[..i];
      var doc := metadata[i];
      if HasCoordinates(doc) {
        var p := MetadataPoint(doc);
        if p.Err? {
          MetadataErrStays(metadata, i + 1);
          return Err(p.error);
        }
        points := points + [p.value];
      }
    }
    assert metadata[..|metadata|] == metadata;
    return Ok(points);
  }

  lemma {:induction false} MetadataErrStays(metadata: seq<Doc>, k: nat)
    requires k <= |metadata| && MetadataPoints(metadata[..k]).Err?
    ensures MetadataPoints(metadata) == MetadataPoints(metadata[..k])
    decreases |metadata| - k
  {
    if k < |metadata| {
      assert metadata[..k + 1][..k] == metadata[..k];
      MetadataErrStays(metadata, k + 1);
    } else {
      assert metadata[..k] == metadata;
    }
  }

  // ------------------------------------------------------------ fetch_weather_data_batched

  const MaxRetries := 3
  const FirstRetryDelay := 60
  const BatchPause := 5

  /** An exception text that `fetch_weather_data_batched` treats as a rate limit. */
  predicate IsRateLimit(message: string)
  {
    Text.Contains(Text.Lower(message), "rate limit") || Text.Contains(Text.Lower(message), "minutely")
  }

  /** The number of batches, `(n + b - 1) // b`. */
  function BatchCount(n: nat, b: nat): nat
    requires b > 0
  {
    (n + b - 1) / b
  }

  /** The batch count is the least number of slices of size `b` that cover `n`. */
  lemma BatchCountIsCeiling(n: nat, b: nat)
    requires b > 0
    ensures BatchCount(n, b) * b >= n
    ensures BatchCount(n, b) > 0 ==> (BatchCount(n, b) - 1) * b < n
  {
  }

  /** Batch `k` starts inside the locations, `b` before batch `k + 1`. */
  lemma BatchStart(n: nat, b: nat, k: nat)
    requires b > 0 && k < BatchCount(n, b)
    ensures k * b < n && (k + 1) * b == k * b + b
  {
    BatchCountIsCeiling(n, b);
    MulMono(k, BatchCount(n, b) - 1, b);
    Distrib(k, b);
  }

  lemma Distrib(k: nat, b: nat)
    ensures (k + 1) * b == k * b + b
  {
  }

  lemma {:induction false} MulMono(k: nat, c: nat, b: nat)
    requires k <= c
    ensures k * b <= c * b
    decreases c - k
  {
    if k < c {
      MulMono(k, c - 1, b);
      Distrib(c - 1, b);
    }
  }

  /** Batch `k`: `locations[k*b : min(k*b + b, n)]`. */
  function Slice(locations: seq<Doc>, b: nat, k: nat): (r: seq<Doc>)
    requires b > 0 && k < BatchCount(|locations|, b)
    ensures 0 < |r| <= b
  {
    BatchStart(|locations|, b, k);
    locations[k * b .. Min(k * b + b, |locations|)]
  }

  /** The slices from batch `k` on, joined, are the locations from `k * b` on. */
  lemma {:induction false} SlicesCover(locations: seq<Doc>, b: nat, k: nat)
    requires b > 0 && k <= BatchCount(|locations|, b)
    ensures JoinSlices(locations, b, k) == locations[Min(k * b, |locations|)..]
    decreases BatchCount(|locations|, b) - k
  {
    if k < BatchCount(|locations|, b) {
      SlicesCover(locations, b, k + 1);
      JoinStep(locations, b, k);
    } else {
      BatchCountIsCeiling(|locations|, b);
    }
  }

  /** One step of the join: batch `k`, then what starts where it ends. */
  lemma JoinStep(locations: seq<Doc>, b: nat, k: nat)
    requires b > 0 && k < BatchCount(|locations|, b)
    requires JoinSlices(locations, b, k + 1) == locations[Min((k + 1) * b, |locations|)..]
    ensures JoinSlices(locations, b, k) == locations[Min(k * b, |locations|)..]
  {
    var n := |locations|;
    BatchStart(n, b, k);
    var lo := k * b;
    var hi := Min(lo + b, n);
    assert Min((k + 1) * b, n) == hi;
    SplitAt(locations, lo, hi);
  }

  lemma SplitAt(s: seq<Doc>, lo: nat, hi: nat)
    requires lo <= hi <= |s|
    ensures s[lo..] == s[lo..hi] + s[hi..]
  {
  }

  function JoinSlices(locations: seq<Doc>, b: nat, k: nat): seq<Doc>
    requires b > 0 && k <= BatchCount(|locations|, b)
    decreases BatchCount(|locations|, b) - k
  {
    if k == BatchCount(|locations|, b) then [] else Slice(locations, b, k) + JoinSlices(locations, b, k + 1)
  }

  /** The batches, in order, are exactly the locations. */
  lemma BatchesPartition(locations: seq<Doc>, b: nat)
    requires b > 0
    ensures JoinSlices(locations, b, 0) == locations
  {
    SlicesCover(locations, b, 0);
  }

  /** What the attempts on one batch did: the data kept, the sleeps taken,
      and how many attempts were made. */
  datatype BatchRun = BatchRun(data: seq<Doc>, sleeps: seq<nat>, attempts: nat)

  /** What attempt `a` on batch `k` gives: the fetch on the scripted reply. */
  function Outcomes(batch: seq<Doc>, k: nat, remote: (nat, nat) -> OpenMeteo.Reply): nat -> Result<seq<Doc>>
  {
    (a: nat) => OpenMeteo.FetchSpec(batch, remote(k, a))
  }

  /** Attempt `a` raised an exception whose text reads as a rate limit. */
  predicate RateLimited(outcome: nat -> Result<seq<Doc>>, a: nat)
  {
    outcome(a).Err? && IsRateLimit(outcome(a).error)
  }

  /** An attempt is kept when it gives a non-empty list. */
  predicate Succeeded(outcome: nat -> Result<seq<Doc>>, a: nat)
  {
    outcome(a).Ok? && outcome(a).value != []
  }

  /** The retry loop of one batch from attempt `a` on, with the current
      delay, when attempt `j` gives `outcome(j)`: a kept attempt ends it, a
      rate-limited one sleeps the delay and doubles it, any other goes on. */
  function Attempts(outcome: nat -> Result<seq<Doc>>, a: nat, delay: nat): (r: BatchRun)
    requires a <= MaxRetries
    ensures a <= r.attempts <= MaxRetries
    decreases MaxRetries - a
  {
    if a == MaxRetries then BatchRun([], [], a)
    else if Succeeded(outcome, a) then BatchRun(outcome(a).value, [], a + 1)
    else
      var limited := RateLimited(outcome, a);
      var rest := Attempts(outcome, a + 1, if limited then delay * 2 else delay);
      BatchRun(rest.data, if limited then [delay] + rest.sleeps else rest.sleeps, rest.attempts)
  }

  /** A kept attempt ends the run with its data and no sleep. */
  lemma AttemptsKept(outcome: nat -> Result<seq<Doc>>, a: nat, delay: nat)
    requires a < MaxRetries && Succeeded(outcome, a)
    ensures Attempts(outcome, a, delay).data == outcome(a).value && Attempts(outcome, a, delay).sleeps == []
  {
  }

  /** An attempt that keeps nothing hands over to the next one, after a
      sleep of the current delay, which then doubles, when it was rate-limited. */
  lemma AttemptsNext(outcome: nat -> Result<seq<Doc>>, a: nat, delay: nat)
    requires a < MaxRetries && !Succeeded(outcome, a)
    ensures var limited := RateLimited(outcome, a);
      var rest := Attempts(outcome, a + 1, if limited then delay * 2 else delay);
      && Attempts(outcome, a, delay).data == rest.data
      && Attempts(outcome, a, delay).sleeps == if limited then [delay] + rest.sleeps else rest.sleeps
  {
  }

  /** The kept data is the first non-empty result; every attempt before it
      failed; a batch without one made all three attempts and keeps nothing. */
  lemma {:induction false} AttemptsFirstSuccess(outcome: nat -> Result<seq<Doc>>, a: nat, delay: nat)
    requires a <= MaxRetries
    ensures var r := Attempts(outcome, a, delay);
      && (forall j :: a <= j < r.attempts - 1 ==> !Succeeded(outcome, j))
      && (r.data != [] ==> r.attempts > a && outcome(r.attempts - 1) == Ok(r.data))
      && (r.data == [] ==> r.attempts == MaxRetries && forall j :: a <= j < MaxRetries ==> !Succeeded(outcome, j))
    decreases MaxRetries - a
  {
    if a < MaxRetries && !Succeeded(outcome, a) {
      AttemptsFirstSuccess(outcome, a + 1, if RateLimited(outcome, a) then delay * 2 else delay);
    }
  }

  /** The backoff sleeps double from the current delay, one per rate-limit
      failure, the one on the last attempt included. */
  lemma AttemptsSleeps(outcome: nat -> Result<seq<Doc>>, a: nat, delay: nat)
    requires a <= MaxRetries
    ensures var r := Attempts(outcome, a, delay);
      |r.sleeps| <= r.attempts - a && forall j :: 0 <= j < |r.sleeps| ==> r.sleeps[j] == delay * Pow2(j)
  {
    AttemptsSleepCount(outcome, a, delay);
    AttemptsSleepValues(outcome, a, delay);
  }

  lemma {:induction false} AttemptsSleepCount(outcome: nat -> Result<seq<Doc>>, a: nat, delay: nat)
    requires a <= MaxRetries
    ensures |Attempts(outcome, a, delay).sleeps| <= Attempts(outcome, a, delay).attempts - a
    decreases MaxRetries - a
  {
    if a < MaxRetries && !Succeeded(outcome, a) {
      AttemptsSleepCount(outcome, a + 1, if RateLimited(outcome, a) then delay * 2 else delay);
    }
  }

  lemma {:induction false} AttemptsSleepValues(outcome: nat -> Result<seq<Doc>>, a: nat, delay: nat)
    requires a <= MaxRetries
    ensures var s := Attempts(outcome, a, delay).sleeps;
      forall j :: 0 <= j < |s| ==> s[j] == delay * Pow2(j)
    decreases MaxRetries - a
  {
    if a < MaxRetries && !Succeeded(outcome, a) {
      if RateLimited(outcome, a) {
        AttemptsSleepValues(outcome, a + 1, delay * 2);
        DoubledSleeps(delay, Attempts(outcome, a + 1, delay * 2).sleeps);
      } else {
        AttemptsSleepValues(outcome, a + 1, delay);
      }
    }
  }

  /** A sleep of `delay` before a schedule doubling from `2 * delay` is a schedule doubling from `delay`. */
  lemma DoubledSleeps(delay: nat, rest: seq<nat>)
    requires forall j :: 0 <= j < |rest| ==> rest[j] == (delay * 2) * Pow2(j)
    ensures forall j :: 0 <= j < |rest| + 1 ==> ([delay] + rest)[j] == delay * Pow2(j)
  {
    var s := [delay] + rest;
    forall j | 0 <= j < |s| ensures s[j] == delay * Pow2(j) {
      if j == 0 {
        assert Pow2(0) == 1;
      } else {
        assert s[j] == rest[j - 1];
        DoubledDelay(delay, j);
      }
    }
  }

  lemma DoubledDelay(delay: nat, j: nat)
    requires j > 0
    ensures (delay * 2) * Pow2(j - 1) == delay * Pow2(j)
  {
    assert Pow2(j) == 2 * Pow2(j - 1);
  }

  /** The sleeps of a batch started at 60 seconds are a prefix of 60, 120, 240. */
  lemma BatchSleepSchedule(outcome: nat -> Result<seq<Doc>>)
    ensures var s := Attempts(outcome, 0, FirstRetryDelay).sleeps;
      |s| <= 3 && s == [60, 120, 240][..|s|]
  {
    AttemptsSleeps(outcome, 0, FirstRetryDelay);
    var s := Attempts(outcome, 0, FirstRetryDelay).sleeps;
    assert Pow2(0) == 1 && Pow2(1) == 2 && Pow2(2) == 4;
    assert forall j :: 0 <= j < |s| ==> s[j] == [60, 120, 240][j];
  }

  /** The result of the batched fetch and the sleeps it took. */
  datatype Batched = Batched(data: seq<Doc>, sleeps: seq<nat>)

  /** Batches `k` to the last, each followed by the pause except the last. */
  function RunFrom(locations: seq<Doc>, b: nat, k: nat, remote: (nat, nat) -> OpenMeteo.Reply): Batched
    requires b > 0 && k <= BatchCount(|locations|, b)
    decreases BatchCount(|locations|, b) - k
  {
    var total := BatchCount(|locations|, b);
    if k == total then Batched([], [])
    else
      var run := Attempts(Outcomes(Slice(locations, b, k), k, remote), 0, FirstRetryDelay);
      var rest := RunFrom(locations, b, k + 1, remote);
      Batched(run.data + rest.data, run.sleeps + (if k < total - 1 then [BatchPause] else []) + rest.sleeps)
  }

  /** What `fetch_weather_data_batched` returns; a batch size of 0 divides by zero. */
  function BatchedSpec(locations: seq<Doc>, b: nat, remote: (nat, nat) -> OpenMeteo.Reply): Result<Batched>
  {
    if locations == [] then Ok(Batched([], []))
    else if b == 0 then Err("ZeroDivisionError: integer division or modulo by zero")
    else Ok(RunFrom(locations, b, 0, remote))
  }

  /** One batch more of `RunFrom`. */
  lemma RunFromStep(locations: seq<Doc>, b: nat, k: nat, remote: (nat, nat) -> OpenMeteo.Reply)
    requires b > 0 && k < BatchCount(|locations|, b)
    ensures var run := Attempts(Outcomes(Slice(locations, b, k), k, remote), 0, FirstRetryDelay);
      var rest := RunFrom(locations, b, k + 1, remote);
      RunFrom(locations, b, k, remote)
        == Batched(run.data + rest.data, run.sleeps + (if k < BatchCount(|locations|, b) - 1 then [BatchPause] else []) + rest.sleeps)
  {
  }

  /** `fetch_weather_data_batched`. */
  method FetchWeatherDataBatched(locations: seq<Doc>, batchSize: nat, remote: (nat, nat) -> OpenMeteo.Reply)
      returns (r: Result<seq<Doc>>, sleeps: seq<nat>)
    ensures r.Ok? <==> BatchedSpec(locations, batchSize, remote).Ok?
    ensures r.Ok? ==> r.value == BatchedSpec(locations, batchSize, remote).value.data
                      && sleeps == BatchedSpec(locations, batchSize, remote).value.sleeps
    ensures r.Err? ==> sleeps == [] && r.error == BatchedSpec(locations, batchSize, remote).error
  {
    sleeps := [];
    if locations == [] {
      return Ok([]), sleeps;
    }
    if batchSize == 0 {
      return Err("ZeroDivisionError: integer division or modulo by zero"), sleeps;
    }
    var totalBatches := (|locations| + batchSize - 1) / batchSize;
    var allProcessed: seq<Doc> := [];
    ghost var whole := RunFrom(locations, batchSize, 0, remote);
    for batchNum := 0 to totalBatches
      invariant whole.data == allProcessed + RunFrom(locations, batchSize, batchNum, remote).data
      invariant whole.sleeps == sleeps + RunFrom(locations, batchSize, batchNum, remote).sleeps
    {
      ghost var rest := RunFrom(locations, batchSize, batchNum + 1, remote);
      RunFromStep(locations, batchSize, batchNum, remote);
      var batchData, batchSleeps := RunNextBatch(locations, batchSize, batchNum, remote);
      ghost var pause: seq<nat> := if batchNum < totalBatches - 1 then [BatchPause] else [];
      assert RunFrom(locations, batchSize, batchNum, remote) == Batched(batchData + rest.data, batchSleeps + pause + rest.sleeps);
      ghost var before := sleeps;
      allProcessed := allProcessed + batchData;
      sleeps := sleeps + batchSleeps;
      if batchNum < totalBatches - 1 {
        sleeps := sleeps + [BatchPause];
      }
      assert sleeps == before + batchSleeps + pause;
      assert whole.sleeps == before + (batchSleeps + pause + rest.sleeps);
      Regroup(before, batchSleeps, pause, rest.sleeps);
    }
    return Ok(allProcessed), sleeps;
  }

  lemma Regroup<T>(a: seq<T>, b: seq<T>, c: seq<T>, d: seq<T>)
    ensures a + b + c + d == a + (b + c + d)
  {
  }

  /** Slicing out batch `k` and running its retry loop. */
  method RunNextBatch(locations: seq<Doc>, batchSize: nat, batchNum: nat, remote: (nat, nat) -> OpenMeteo.Reply)
      returns (batchData: seq<Doc>, batchSleeps: seq<nat>)
    requires batchSize > 0 && batchNum < BatchCount(|locations|, batchSize)
    ensures var run := Attempts(Outcomes(Slice(locations, batchSize, batchNum), batchNum, remote), 0, FirstRetryDelay);
      batchData == run.data && batchSleeps == run.sleeps
  {
    BatchStart(|locations|, batchSize, batchNum);
    var startIdx := batchNum * batchSize;
    var endIdx := Min(startIdx + batchSize, |locations|);
    var batchLocations := locations[startIdx..endIdx];
    assert batchLocations == Slice(locations, batchSize, batchNum);
    batchData, batchSleeps := RunBatch(batchLocations, batchNum, remote);
  }

  /** The retry loop of one batch: attempt `retry` is the fetch on the reply
      the service gives that attempt. */
  method RunBatch(batch: seq<Doc>, k: nat, remote: (nat, nat) -> OpenMeteo.Reply) returns (data: seq<Doc>, sleeps: seq<nat>)
    ensures data == Attempts(Outcomes(batch, k, remote), 0, FirstRetryDelay).data
    ensures sleeps == Attempts(Outcomes(batch, k, remote), 0, FirstRetryDelay).sleeps
  {
    data, sleeps := RetryLoop(Outcomes(batch, k, remote));
  }

  /** `for retry in range(max_retries)` when attempt `retry` gives `fetch(retry)`. */
  method RetryLoop(fetch: nat -> Result<seq<Doc>>) returns (data: seq<Doc>, sleeps: seq<nat>)
    ensures data == Attempts(fetch, 0, FirstRetryDelay).data
    ensures sleeps == Attempts(fetch, 0, FirstRetryDelay).sleeps
  {
    var retryDelay: nat := FirstRetryDelay;
    sleeps := [];
    var retry := 0;
    while retry < MaxRetries
      invariant 0 <= retry <= MaxRetries
      invariant Attempts(fetch, 0, FirstRetryDelay).data == Attempts(fetch, retry, retryDelay).data
      invariant Attempts(fetch, 0, FirstRetryDelay).sleeps == sleeps + Attempts(fetch, retry, retryDelay).sleeps
    {
      var kept;
      kept, sleeps, retryDelay := Attempt(fetch, retry, retryDelay, sleeps);
      if kept != [] {
        return kept, sleeps;
      }
      retry := retry + 1;
    }
    return [], sleeps;
  }

  /** One pass of the retry loop: the data when attempt `retry` is kept,
      else nothing, with the backoff sleep and the doubled delay after a rate limit. */
  method Attempt(fetch: nat -> Result<seq<Doc>>, retry: nat, retryDelay: nat, sleeps: seq<nat>)
      returns (kept: seq<Doc>, sleeps': seq<nat>, retryDelay': nat)
    requires retry < MaxRetries
    ensures kept != [] ==> kept == Attempts(fetch, retry, retryDelay).data && sleeps' == sleeps
                           && Attempts(fetch, retry, retryDelay).sleeps == []
    ensures kept == [] ==> Attempts(fetch, retry, retryDelay).data == Attempts(fetch, retry + 1, retryDelay').data
    ensures kept == [] ==> sleeps + Attempts(fetch, retry, retryDelay).sleeps == sleeps' + Attempts(fetch, retry + 1, retryDelay').sleeps
  {
    var batchData := fetch(retry);
    if batchData.Ok? && batchData.value != [] {
      AttemptsKept(fetch, retry, retryDelay);
      return batchData.value, sleeps, retryDelay;
    }
    AttemptsNext(fetch, retry, retryDelay);
    if batchData.Err? && IsRateLimit(batchData.error) {
      var rest := Attempts(fetch, retry + 1, retryDelay * 2).sleeps;
      assert sleeps + ([retryDelay] + rest) == (sleeps + [retryDelay]) + rest;
      return [], sleeps + [retryDelay], retryDelay * 2;
    }
    return [], sleeps, retryDelay;
  }

  // ------------------------------------------------------------ what the batching adds up to

  /** Batching never produces more records than there are locations. */
  lemma {:induction false} RunFromBound(locations: seq<Doc>, b: nat, k: nat, remote: (nat, nat) -> OpenMeteo.Reply)
    requires b > 0 && k <= BatchCount(|locations|, b)
    ensures |RunFrom(locations, b, k, remote).data| <= |JoinSlices(locations, b, k)|
    decreases BatchCount(|locations|, b) - k
  {
    if k < BatchCount(|locations|, b) {
      RunFromBound(locations, b, k + 1, remote);
      var batch := Slice(locations, b, k);
      var outcome := Outcomes(batch, k, remote);
      var run := Attempts(outcome, 0, FirstRetryDelay);
      AttemptsFirstSuccess(outcome, 0, FirstRetryDelay);
      if run.data != [] {
        assert OpenMeteo.FetchSpec(batch, remote(k, run.attempts - 1)) == Ok(run.data);
        OpenMeteo.FetchPairs(batch, remote(k, run.attempts - 1));
      }
    }
  }

  lemma BatchedBound(locations: seq<Doc>, b: nat, remote: (nat, nat) -> OpenMeteo.Reply)
    requires BatchedSpec(locations, b, remote).Ok?
    ensures |BatchedSpec(locations, b, remote).value.data| <= |locations|
  {
    if locations != [] {
      RunFromBound(locations, b, 0, remote);
      BatchesPartition(locations, b);
    }
  }

  /** The only exception `fetch_weather_data` lets escape is the KeyError of a
      location without a coordinate, which is no rate limit. */
  lemma FetchErrorsAreNotRateLimits(locations: seq<Doc>, reply: OpenMeteo.Reply)
    requires OpenMeteo.FetchSpec(locations, reply).Err?
    ensures !IsRateLimit(OpenMeteo.FetchSpec(locations, reply).error)
  {
    var e := OpenMeteo.FetchSpec(locations, reply).error;
    assert e == "KeyError: 'lat'" || e == "KeyError: 'lon'";
    NoRateLimitIn(e);
  }

  lemma NoRateLimitIn(e: string)
    requires e == "KeyError: 'lat'" || e == "KeyError: 'lon'"
    ensures !IsRateLimit(e)
  {
    var l := Text.Lower(e);
    if e == "KeyError: 'lat'" {
      LowerKeyErrorLat();
    } else {
      LowerKeyErrorLon();
    }
    NoRateLimitInLowered(l);
  }

  lemma LowerKeyErrorLat()
    ensures Text.Lower("KeyError: 'lat'") == "keyerror: 'lat'"
  {
  }

  lemma LowerKeyErrorLon()
    ensures Text.Lower("KeyError: 'lon'") == "keyerror: 'lon'"
  {
  }

  lemma NoRateLimitInLowered(l: string)
    requires l == "keyerror: 'lat'" || l == "keyerror: 'lon'"
    ensures !Text.Contains(l, "minutely") && !Text.Contains(l, "rate limit")
  {
    NoMinutely(l);
    NoRateLimitText(l);
  }

  lemma NoMinutely(l: string)
    requires l == "keyerror: 'lat'" || l == "keyerror: 'lon'"
    ensures !Text.Contains(l, "minutely")
  {
    assert forall i :: 0 <= i < |l| ==> l[i] != 'm';
    NotContains(l, "minutely");
  }

  lemma NoRateLimitText(l: string)
    requires l == "keyerror: 'lat'" || l == "keyerror: 'lon'"
    ensures !Text.Contains(l, "rate limit")
  {
    var sub := "rate limit";
    assert sub[0] == 'r' && sub[1] == 'a';
    assert forall i :: 0 <= i < |l| - 1 ==> !(l[i] == 'r' && l[i + 1] == 'a');
    NotContains(l, sub);
  }

  /** A text lacking the first character of `sub`, or lacking its first two
      characters side by side, does not contain it. */
  lemma {:induction false} NotContains(s: string, sub: string)
    requires |sub| >= 2
    requires (forall i :: 0 <= i < |s| ==> s[i] != sub[0])
          || (forall i :: 0 <= i < |s| - 1 ==> !(s[i] == sub[0] && s[i + 1] == sub[1]))
    ensures !Text.Contains(s, sub)
    decreases |s|
  {
    if s != [] {
      assert !Text.StartsWith(s, sub) by {
        if |sub| <= |s| {
          assert s[..|sub|][0] == s[0] && s[..|sub|][1] == s[1];
        }
      }
      NotContains(s[1..], sub);
    }
  }

  /** `n` sleeps, each the pause between two batches. */
  predicate OnlyPauses(s: seq<nat>, n: nat)
  {
    |s| == n && forall j :: 0 <= j < |s| ==> s[j] == BatchPause
  }

  lemma PrependPause(pause: seq<nat>, rest: seq<nat>, n: nat)
    requires pause == [] || pause == [BatchPause]
    requires OnlyPauses(rest, n)
    ensures OnlyPauses(pause + rest, n + |pause|)
  {
  }

  /** As written, no batch ever backs off: the only sleeps are the 5-second
      pauses, one between each two batches. */
  lemma {:induction false} OnlyPausesAsWritten(locations: seq<Doc>, b: nat, k: nat, remote: (nat, nat) -> OpenMeteo.Reply)
    requires b > 0 && k <= BatchCount(|locations|, b)
    ensures OnlyPauses(RunFrom(locations, b, k, remote).sleeps, if k == BatchCount(|locations|, b) then 0 else BatchCount(|locations|, b) - k - 1)
    decreases BatchCount(|locations|, b) - k
  {
    var total := BatchCount(|locations|, b);
    if k < total {
      var rest := RunFrom(locations, b, k + 1, remote).sleeps;
      OnlyPausesAsWritten(locations, b, k + 1, remote);
      BatchNeverBacksOff(Slice(locations, b, k), k, remote);
      RunFromStep(locations, b, k, remote);
      var pause: seq<nat> := if k < total - 1 then [BatchPause] else [];
      assert RunFrom(locations, b, k, remote).sleeps == pause + rest;
      PrependPause(pause, rest, if k + 1 == total then 0 else total - k - 2);
    }
  }

  /** The retry loop of one batch, against the fetch as written, never sleeps. */
  lemma BatchNeverBacksOff(batch: seq<Doc>, k: nat, remote: (nat, nat) -> OpenMeteo.Reply)
    ensures Attempts(Outcomes(batch, k, remote), 0, FirstRetryDelay).sleeps == []
  {
    var outcome := Outcomes(batch, k, remote);
    forall j: nat | outcome(j).Err? ensures !IsRateLimit(outcome(j).error) {
      FetchErrorsAreNotRateLimits(batch, remote(k, j));
    }
    NoBackoff(outcome, 0, FirstRetryDelay);
  }

  lemma {:induction false} NoBackoff(outcome: nat -> Result<seq<Doc>>, a: nat, delay: nat)
    requires a <= MaxRetries
    requires forall j :: a <= j && outcome(j).Err? ==> !IsRateLimit(outcome(j).error)
    ensures Attempts(outcome, a, delay).sleeps == []
    decreases MaxRetries - a
  {
    if a < MaxRetries {
      NoBackoff(outcome, a + 1, delay);
    }
  }
}
