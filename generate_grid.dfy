/** The grid generator, `openmeteo/generate_grid_1degree.py`: every integral
    latitude from -11 to 6 and longitude from 95 to 141, written as two
    comma-joined lists of four-decimal numbers. This is the
    `gridData_1degree.json` the grid fetcher seeds its metadata from. */
module GenerateGrid {
  import opened Common
  import opened Json
  import opened Text
  import FetchWeatherData

  const LatMin: int := -11
  const LatMax: int := 6
  const LonMin: int := 95
  const LonMax: int := 141

  /** Longitudes per latitude (47) and latitudes (18). */
  const Columns: nat := 47
  const Rows: nat := 18

  const Description: string := "1-degree grid covering Indonesia (-11 to 6 lat, 95 to 141 lon)"

  /** The `grid_data` dict. */
  datatype GridData = GridData(latitude: string, longitude: string, gridSize: int, totalPoints: int, description: string)

  /** Entry `k` of the lists, in latitude-major order. */
  function GridLat(k: int): int { LatMin + k / Columns }
  function GridLon(k: int): int { LonMin + k % Columns }

  /** The `latitudes` and `longitudes` lists the loops build. */
  function Latitudes(): (r: seq<string>)
    ensures |r| == Rows * Columns
    ensures forall k :: 0 <= k < |r| ==> r[k] == FormatFourDecimalsOfInt(GridLat(k))
  {
    seq(Rows * Columns, k requires 0 <= k < Rows * Columns => FormatFourDecimalsOfInt(GridLat(k)))
  }

  function Longitudes(): (r: seq<string>)
    ensures |r| == Rows * Columns
    ensures forall k :: 0 <= k < |r| ==> r[k] == FormatFourDecimalsOfInt(GridLon(k))
  {
    seq(Rows * Columns, k requires 0 <= k < Rows * Columns => FormatFourDecimalsOfInt(GridLon(k)))
  }

  /** What `generate_1degree_grid` returns. */
  function GeneratedGrid(): GridData
  {
    GridData(Join(Latitudes(), ','), Join(Longitudes(), ','), 1, |Latitudes()|, Description)
  }

  /** Each pair of the bounding box, both bounds inclusive, is entry
      `(lat + 11) * 47 + (lon - 95)`, and every entry is such a pair: 846
      points in all. */
  lemma GridCovers(lat: int, lon: int)
    requires LatMin <= lat <= LatMax && LonMin <= lon <= LonMax
    ensures var k := (lat - LatMin) * Columns + (lon - LonMin);
      0 <= k < |Latitudes()| == 846 && GridLat(k) == lat && GridLon(k) == lon
  {
    var k := (lat - LatMin) * Columns + (lon - LonMin);
    assert k / 47 == lat + 11 && k % 47 == lon - 95;
  }

  lemma GridBounds(k: nat)
    requires k < Rows * Columns
    ensures LatMin <= GridLat(k) <= LatMax && LonMin <= GridLon(k) <= LonMax
  {
  }

  /** The nested loops of `generate_1degree_grid`. */
  method Generate1DegreeGrid() returns (g: GridData)
    ensures g == GeneratedGrid()
    ensures g.totalPoints == 846
  {
    var latitudes: seq<string> := [];
    var longitudes: seq<string> := [];
    for lat := LatMin to LatMax + 1
      invariant |latitudes| == (lat - LatMin) * Columns && |longitudes| == |latitudes|
      invariant forall k :: 0 <= k < |latitudes| ==>
        latitudes[k] == FormatFourDecimalsOfInt(GridLat(k)) && longitudes[k] == FormatFourDecimalsOfInt(GridLon(k))
    {
      for lon := LonMin to LonMax + 1
        invariant |latitudes| == (lat - LatMin) * Columns + (lon - LonMin) && |longitudes| == |latitudes|
        invariant forall k :: 0 <= k < |latitudes| ==>
          latitudes[k] == FormatFourDecimalsOfInt(GridLat(k)) && longitudes[k] == FormatFourDecimalsOfInt(GridLon(k))
      {
        var k := |latitudes|;
        assert k / 47 == lat + 11 && k % 47 == lon - 95;
        latitudes := latitudes + [FormatFourDecimalsOfInt(lat)];
        longitudes := longitudes + [FormatFourDecimalsOfInt(lon)];
      }
    }
    assert latitudes == Latitudes() && longitudes == Longitudes();
    g := GridData(Join(latitudes, ','), Join(longitudes, ','), 1, |latitudes|, Description);
  }

  /** The dict as `json.load` reads it back from the file `json.dump` wrote. */
  function GridJson(g: GridData): Json
  {
    JObj(map[
      "latitude" := JStr(g.latitude),
      "longitude" := JStr(g.longitude),
      "grid_size" := JInt(g.gridSize),
      "total_points" := JInt(g.totalPoints),
      "description" := JStr(g.description)])
  }

  /** A number printed with four decimals has no comma and reads back,
      after `strip`, as itself. */
  lemma FourDecimalsPiece(i: int)
    ensures ',' !in FormatFourDecimalsOfInt(i)
    ensures FetchWeatherData.PieceValue(FormatFourDecimalsOfInt(i)) == Some(i as real)
  {
    var t := IntToString(i);
    var s := t + ".0000";
    assert forall j :: 0 <= j < |t| ==> t[j] == '-' || IsDigit(t[j]);
    assert forall j :: 0 <= j < |s| ==> s[j] != ',' by {
      forall j | 0 <= j < |s| ensures s[j] != ',' {
        if j < |t| { assert s[j] == t[j]; } else { assert s[j] == ".0000"[j - |t|]; }
      }
    }
    assert t != [] && (t[0] == '-' || IsDigit(t[0]));
    assert s[0] == t[0] && s[|s| - 1] == '0';
    StripUnchanged(s, IsSpace);
    ParseFloatOfFourDecimals(i);
  }

  /** Converting every piece succeeds when each one does, and gives their values. */
  lemma {:induction false} ParseListAll(pieces: seq<string>, f: string -> Option<real>, vs: seq<real>)
    requires |vs| == |pieces|
    requires forall i :: 0 <= i < |pieces| ==> f(pieces[i]) == Some(vs[i])
    ensures FetchWeatherData.ParseList(pieces, f) == Some(vs)
    decreases |pieces|
  {
    if pieces != [] {
      var n := |pieces| - 1;
      ParseListAll(pieces[..n], f, vs[..n]);
      assert vs == vs[..n] + [vs[n]];
    }
  }

  /** The coordinate list the grid fetcher reads from one of the joined strings. */
  lemma CoordinatesReadBack(strings: seq<string>, values: seq<int>, reals: seq<real>, key: string, g: Json)
    requires |strings| == |values| == |reals| >= 1
    requires forall k :: 0 <= k < |strings| ==> strings[k] == FormatFourDecimalsOfInt(values[k]) && reals[k] == values[k] as real
    requires g.JObj? && key in g.fields && g.fields[key] == JStr(Join(strings, ','))
    ensures FetchWeatherData.CoordinateList(g, key) == Some(reals)
  {
    FourDecimalsPieces(strings, values, reals);
    PiecesReadBack(strings, reals, key, g);
  }

  lemma FourDecimalsPieces(strings: seq<string>, values: seq<int>, reals: seq<real>)
    requires |strings| == |values| == |reals|
    requires forall k :: 0 <= k < |strings| ==> strings[k] == FormatFourDecimalsOfInt(values[k]) && reals[k] == values[k] as real
    ensures forall k :: 0 <= k < |strings| ==> ',' !in strings[k] && FetchWeatherData.PieceValue(strings[k]) == Some(reals[k])
  {
    forall k | 0 <= k < |strings| ensures ',' !in strings[k] && FetchWeatherData.PieceValue(strings[k]) == Some(reals[k]) {
      FourDecimalsPiece(values[k]);
    }
  }

  /** Comma-free pieces, joined and split again, convert to their values. */
  lemma PiecesReadBack(strings: seq<string>, reals: seq<real>, key: string, g: Json)
    requires |strings| == |reals| >= 1
    requires forall k :: 0 <= k < |strings| ==> ',' !in strings[k] && FetchWeatherData.PieceValue(strings[k]) == Some(reals[k])
    requires g.JObj? && key in g.fields && g.fields[key] == JStr(Join(strings, ','))
    ensures FetchWeatherData.CoordinateList(g, key) == Some(reals)
  {
    SplitJoin(strings, ',');
    ParseListAll(strings, FetchWeatherData.PieceValue, reals);
    SubscriptField(g.fields, key);
  }

  /** The values of the generated lists. */
  function GridLats(): (r: seq<real>)
    ensures |r| == Rows * Columns && forall k :: 0 <= k < |r| ==> r[k] == GridLat(k) as real
  {
    seq(Rows * Columns, k requires 0 <= k < Rows * Columns => GridLat(k) as real)
  }

  function GridLons(): (r: seq<real>)
    ensures |r| == Rows * Columns && forall k :: 0 <= k < |r| ==> r[k] == GridLon(k) as real
  {
    seq(Rows * Columns, k requires 0 <= k < Rows * Columns => GridLon(k) as real)
  }

  /** Both coordinate lists of the generated file read back as the grid's values. */
  lemma LatitudesReadBack()
    ensures FetchWeatherData.CoordinateList(GridJson(GeneratedGrid()), "latitude") == Some(GridLats())
  {
    var n := Rows * Columns;
    var lats := seq(n, k requires 0 <= k < n => GridLat(k));
    assert forall k :: 0 <= k < n ==> Latitudes()[k] == FormatFourDecimalsOfInt(lats[k]) && GridLats()[k] == lats[k] as real;
    GridJsonFields(GeneratedGrid());
    CoordinatesReadBack(Latitudes(), lats, GridLats(), "latitude", GridJson(GeneratedGrid()));
  }

  lemma LongitudesReadBack()
    ensures FetchWeatherData.CoordinateList(GridJson(GeneratedGrid()), "longitude") == Some(GridLons())
  {
    var n := Rows * Columns;
    var lons := seq(n, k requires 0 <= k < n => GridLon(k));
    assert forall k :: 0 <= k < n ==> Longitudes()[k] == FormatFourDecimalsOfInt(lons[k]) && GridLons()[k] == lons[k] as real;
    GridJsonFields(GeneratedGrid());
    CoordinatesReadBack(Longitudes(), lons, GridLons(), "longitude", GridJson(GeneratedGrid()));
  }

  lemma GridJsonFields(g: GridData)
    ensures var j := GridJson(g);
      && j.JObj? && "latitude" in j.fields && "longitude" in j.fields
      && j.fields["latitude"] == JStr(g.latitude)
      && j.fields["longitude"] == JStr(g.longitude)
  {
  }

  /** Zipped, the values are the fallback grid. */
  lemma GridPointsAreFallback()
    ensures FetchWeatherData.SeedPoints(GridLats(), GridLons()) == FetchWeatherData.FallbackGrid()
  {
    var points := FetchWeatherData.SeedPoints(GridLats(), GridLons());
    var fallback := FetchWeatherData.FallbackGrid();
    forall k | 0 <= k < Rows * Columns ensures points[k] == fallback[k] {
      assert fallback[k] == FetchWeatherData.FallbackPoint(GridLat(k), GridLon(k));
      FetchWeatherData.FallbackPointIsSeedPoint(GridLat(k), GridLon(k));
    }
  }

  /** A seed file holding the generated grid gives the grid fetcher exactly
      its fallback grid, point for point and in the same order. */
  lemma GeneratedGridIsFallback(content: Option<string>, jsonLoads: string -> Option<Json>)
    requires content.Some?
    requires jsonLoads(FetchWeatherData.BraceSpan(content.value)) == Some(GridJson(GeneratedGrid()))
    ensures FetchWeatherData.SeedGrid(content, jsonLoads) == Some(FetchWeatherData.FallbackGrid())
  {
    LatitudesReadBack();
    LongitudesReadBack();
    GridPointsAreFallback();
  }
}
