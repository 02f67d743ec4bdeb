/** The city collector, `backend/collectors/update_city_weather.py`: load the
    cities (from the metadata collection, else from the `namaKota.json` seed,
    which is then written back as metadata), skip the run while the stored
    data is fresh, fetch the current weather and upsert it by city name. */
module UpdateCityWeather {
  import opened Common
  import opened Json
  import OpenMeteo
  import opened WeatherRepository

  // ------------------------------------------------------------ the metadata path

  /** `doc.get('latitude') is not None and doc.get('longitude') is not None`. */
  predicate HasCityCoordinates(doc: Doc)
  {
    Get(doc, "latitude") != JNull && Get(doc, "longitude") != JNull
  }

  /** The city a metadata document gives. */
  function CityOf(doc: Doc): (c: Doc)
    ensures c.Keys == {"name", "lat", "lon"}
    ensures c["name"] == Get(doc, "name") && c["lat"] == Get(doc, "latitude") && c["lon"] == Get(doc, "longitude")
  {
    map["name" := Get(doc, "name"), "lat" := Get(doc, "latitude"), "lon" := Get(doc, "longitude")]
  }

  /** The list comprehension over the stored metadata. */
  function MetadataCities(metadata: seq<Doc>): seq<Doc>
  {
    var kept := Filter(metadata, HasCityCoordinates);
    seq(|kept|, i requires 0 <= i < |kept| => CityOf(kept[i]))
  }

  /** The metadata path keeps, in order, the documents with both coordinates
      and maps each to its name and coordinates; a document is represented
      exactly when it has both coordinates. */
  lemma MetadataCitiesMeaning(metadata: seq<Doc>, doc: Doc)
    ensures |MetadataCities(metadata)| <= |metadata|
    ensures doc in metadata && HasCityCoordinates(doc) ==> CityOf(doc) in MetadataCities(metadata)
    ensures forall c :: c in MetadataCities(metadata) ==> exists d :: d in metadata && HasCityCoordinates(d) && c == CityOf(d)
  {
    var kept := Filter(metadata, HasCityCoordinates);
    var cities := MetadataCities(metadata);
    FilterMembers(metadata, HasCityCoordinates, doc);
    if doc in metadata && HasCityCoordinates(doc) {
      var j :| 0 <= j < |kept| && kept[j] == doc;
      assert cities[j] == CityOf(doc);
    }
    forall c | c in cities
      ensures exists d :: d in metadata && HasCityCoordinates(d) && c == CityOf(d)
    {
      var i :| 0 <= i < |cities| && cities[i] == c;
      assert kept[i] in kept;
      FilterMembers(metadata, HasCityCoordinates, kept[i]);
    }
  }

  /** Splitting the metadata splits the cities: no document hides another. */
  lemma MetadataCitiesConcat(xs: seq<Doc>, ys: seq<Doc>)
    ensures MetadataCities(xs + ys) == MetadataCities(xs) + MetadataCities(ys)
  {
    FilterConcat(xs, ys, HasCityCoordinates);
  }

  // ------------------------------------------------------------ the seed path

  /** One `(city_name, data)` item of the seed object, in file order. */
  type SeedEntry = (string, Json)

  /** `data.get(...)` works only on an object; anything else raises. */
  predicate SeedEntryKept(e: SeedEntry)
  {
    e.1.JObj? && Get(e.1.fields, "latitude") != JNull && Get(e.1.fields, "longitude") != JNull
  }

  /** `{'name': city_name, 'lat': lat, 'lon': lon}`. */
  function SeedCity(e: SeedEntry): (c: Doc)
    requires e.1.JObj?
    ensures c.Keys == {"name", "lat", "lon"} && c["name"] == JStr(e.0)
  {
    map["name" := JStr(e.0), "lat" := Get(e.1.fields, "latitude"), "lon" := Get(e.1.fields, "longitude")]
  }

  /** `document = dict(data); document.setdefault('name', city_name)`. */
  function SeedDoc(e: SeedEntry): (d: Doc)
    requires e.1.JObj?
    ensures "name" in d && d["name"] == GetOr(e.1.fields, "name", JStr(e.0))
    ensures d.Keys == e.1.fields.Keys + {"name"}
    ensures forall f :: f in e.1.fields ==> d[f] == e.1.fields[f]
  {
    SetDefault(e.1.fields, "name", JStr(e.0))
  }

  /** The two lists the seed loop builds. */
  datatype Seeded = Seeded(cities: seq<Doc>, docs: seq<Doc>)

  /** What the loop over the seed's items has built after those items, all of
      them objects. */
  function Seed(entries: seq<SeedEntry>): Seeded
  {
    if entries == [] then Seeded([], [])
    else
      var s := Seed(entries[..|entries| - 1]);
      var e := entries[|entries| - 1];
      if SeedEntryKept(e) then Seeded(s.cities + [SeedCity(e)], s.docs + [SeedDoc(e)]) else s
  }

  /** The seed loop: the first item that is not an object raises
      AttributeError, and the outer `try` turns that into no cities. */
  function SeedSpec(entries: seq<SeedEntry>): Result<Seeded>
  {
    if exists i :: 0 <= i < |entries| && !entries[i].1.JObj? then Err("AttributeError: 'get'")
    else Ok(Seed(entries))
  }

  /** A city and the metadata document written for it agree. */
  predicate Paired(e: SeedEntry, c: Doc, d: Doc)
  {
    && SeedEntryKept(e)
    && c == SeedCity(e) && d == SeedDoc(e)
  }

  /** Each kept city yields exactly one metadata document, at the same
      position, built from the same item; the items skipped are exactly those
      missing a coordinate. */
  lemma {:induction false} SeedPairs(entries: seq<SeedEntry>)
    ensures var s := Seed(entries);
      && |s.cities| == |s.docs| == |Filter(entries, SeedEntryKept)|
      && forall i :: 0 <= i < |s.cities| ==> Paired(Filter(entries, SeedEntryKept)[i], s.cities[i], s.docs[i])
    decreases |entries|
  {
    if entries != [] {
      var init := entries[..|entries| - 1];
      SeedPairs(init);
      assert entries == init + [entries[|entries| - 1]];
      FilterSnoc(init, entries[|entries| - 1], SeedEntryKept);
    }
  }

  /** A seed city carries both coordinates, and the document written for it
      holds them under `latitude` and `longitude`. */
  lemma SeedCityCoordinates(entries: seq<SeedEntry>, i: nat)
    requires i < |Seed(entries).cities|
    ensures var s := Seed(entries);
      && |s.docs| == |s.cities|
      && Get(s.cities[i], "lat") != JNull && Get(s.cities[i], "lon") != JNull
      && Get(s.docs[i], "latitude") == Get(s.cities[i], "lat") && Get(s.docs[i], "longitude") == Get(s.cities[i], "lon")
  {
    SeedPairs(entries);
  }

  /** The seed loop, as written. */
  method ReadSeed(entries: seq<SeedEntry>) returns (r: Result<Seeded>)
    ensures r == SeedSpec(entries)
  {
    var cities: seq<Doc> := [];
    var metadataDocs: seq<Doc> := [];
    var k := 0;
    while k < |entries|
      invariant 0 <= k <= |entries|
      invariant forall i :: 0 <= i < k ==> entries[i].1.JObj?
      invariant Seed(entries[..k]) == Seeded(cities, metadataDocs)
    {
      var (cityName, data) := entries[k];
      assert entries[..k + 1][..k] == entries[..k];
      if !data.JObj? {
        return Err("AttributeError: 'get'");
      }
      var lat := Get(data.fields, "latitude");
      var lon := Get(data.fields, "longitude");
      if lat == JNull || lon == JNull {
        k := k + 1;
        continue;
      }
      cities := cities + [map["name" := JStr(cityName), "lat" := lat, "lon" := lon]];
      metadataDocs := metadataDocs + [SetDefault(data.fields, "name", JStr(cityName))];
      k := k + 1;
    }
    assert entries[..k] == entries;
    return Ok(Seeded(cities, metadataDocs));
  }

  // ------------------------------------------------------------ load_city_coordinates

  /** The cities `load_city_coordinates` returns: a metadata read that raises
      counts as no metadata; a seed file that cannot be read or is not an
      object (`seed` is Err) gives none. */
  function LoadedCities(online: bool, metadata: seq<Doc>, seed: Result<seq<SeedEntry>>): seq<Doc>
  {
    if online && metadata != [] then MetadataCities(metadata)
    else match seed
      case Err(_) => []
      case Ok(entries) => match SeedSpec(entries) case Err(_) => [] case Ok(s) => s.cities
  }

  /** The metadata documents the seed path hands to `save_city_metadata`. */
  function SeedWriteBack(online: bool, metadata: seq<Doc>, seed: Result<seq<SeedEntry>>): seq<Doc>
  {
    if online && metadata != [] then []
    else match seed
      case Err(_) => []
      case Ok(entries) => match SeedSpec(entries) case Err(_) => [] case Ok(s) => s.docs
  }

  /** A loaded city always has `name`, `lat` and `lon`, so the coordinate
      lists the fetch builds can never raise KeyError. */
  lemma LoadedCitiesHaveKeys(online: bool, metadata: seq<Doc>, seed: Result<seq<SeedEntry>>)
    ensures forall c :: c in LoadedCities(online, metadata, seed) ==> c.Keys == {"name", "lat", "lon"}
  {
    if !(online && metadata != []) && seed.Ok? && SeedSpec(seed.value).Ok? {
      SeedPairs(seed.value);
    }
  }

  /** The seed path writes as many metadata documents as it returns cities. */
  lemma WriteBackMatchesCities(online: bool, metadata: seq<Doc>, seed: Result<seq<SeedEntry>>)
    ensures !(online && metadata != []) ==> |SeedWriteBack(online, metadata, seed)| == |LoadedCities(online, metadata, seed)|
    ensures online && metadata != [] ==> SeedWriteBack(online, metadata, seed) == []
  {
    if !(online && metadata != []) && seed.Ok? && SeedSpec(seed.value).Ok? {
      SeedPairs(seed.value);
    }
  }

  /** The metadata collection after `save_city_metadata(docs)` with the clock at `clock`. */
  function CityMetadataAfter(online: bool, collection: seq<Doc>, clock: int, docs: seq<Doc>): seq<Doc>
  {
    var ops := CityMetadataOps(docs, clock);
    if ops != [] && online then BulkWrite(collection, "name", ops) else collection
  }

  /** `load_city_coordinates`. A failed metadata save is caught and does not
      change the cities returned. */
  method LoadCityCoordinates(store: Store, seed: Result<seq<SeedEntry>>) returns (cities: seq<Doc>)
    modifies store`cityMetadata, store`clock
    ensures cities == LoadedCities(store.online, old(store.cityMetadata), seed)
    ensures var docs := SeedWriteBack(store.online, old(store.cityMetadata), seed);
      && store.clock == old(store.clock) + |CityMetadataOps(docs, old(store.clock))|
      && store.cityMetadata == CityMetadataAfter(store.online, old(store.cityMetadata), old(store.clock), docs)
  {
    var read := store.GetCityMetadata();
    var metadata := if read.Ok? then read.value else [];
    if metadata != [] {
      return MetadataCities(metadata);
    }
    if seed.Err? {
      return [];
    }
    var loaded := ReadSeed(seed.value);
    if loaded.Err? {
      return [];
    }
    if loaded.value.docs != [] {
      var _ := store.SaveCityMetadata(Some(loaded.value.docs));
    }
    return loaded.value.cities;
  }

  // ------------------------------------------------------------ fetch_city_weather_data

  /** `fetch_city_weather_data` is the Open-Meteo fetch on the loaded cities:
      it cannot raise on them, it gives nothing for no cities, and record `i`
      carries the name and coordinates of city `i`. */
  lemma CityFetch(online: bool, metadata: seq<Doc>, seed: Result<seq<SeedEntry>>, reply: OpenMeteo.Reply)
    ensures var cities := LoadedCities(online, metadata, seed);
      var out := OpenMeteo.FetchSpec(cities, reply);
      && out.Ok?
      && (cities == [] ==> out.value == [])
      && forall i :: 0 <= i < |out.value| ==>
           i < |cities| && out.value[i]["name"] == cities[i]["name"]
           && out.value[i]["lat"] == cities[i]["lat"] && out.value[i]["lon"] == cities[i]["lon"]
  {
    var cities := LoadedCities(online, metadata, seed);
    LoadedCitiesHaveKeys(online, metadata, seed);
    assert forall i :: 0 <= i < |cities| ==> cities[i] in cities;
    OpenMeteo.FetchErrors(cities, reply);
    OpenMeteo.FetchPairs(cities, reply);
  }

  // ------------------------------------------------------------ check_data_freshness and main

  /** `check_data_freshness`: a check that raises counts as stale. */
  method CheckDataFreshness(store: Store, now: int, fromIso: string -> Option<int>) returns (isFresh: bool)
    ensures isFresh == (store.online && IsFresh(LatestTimestamp(store.cityWeather, FetchedAtPath, fromIso), now, DefaultCityMaxAgeHours))
  {
    var r := store.IsCityWeatherFresh(now, DefaultCityMaxAgeHours, fromIso);
    if r.Err? {
      return false;
    }
    return r.value;
  }

  /** What `main` does, as an exit code and the weather records it saves. */
  datatype Run = Run(code: int, saved: seq<Doc>)

  /** The decision chain of `main`: fresh data ends the run with 0 and no
      fetch; no cities or no records end it with 1 and no save; otherwise the
      records are saved, and the run ends with 0 unless the save raised. */
  function UpdateSpec(isFresh: bool, online: bool, cities: seq<Doc>, reply: OpenMeteo.Reply): (r: Run)
    ensures r.code == 0 || r.code == 1
    ensures r.saved != [] ==> !isFresh && cities != []
  {
    if isFresh then Run(0, [])
    else if cities == [] then Run(1, [])
    else match OpenMeteo.FetchSpec(cities, reply)
      case Err(_) => Run(1, [])
      case Ok(data) =>
        if data == [] then Run(1, [])
        else Run(if online then 0 else 1, data)
  }

  /** `main` succeeds exactly when the data is fresh, or when records were
      fetched and the store accepted them; it never saves when it fails
      for lack of cities or records. */
  lemma UpdateOutcomes(isFresh: bool, online: bool, cities: seq<Doc>, reply: OpenMeteo.Reply)
    ensures var r := UpdateSpec(isFresh, online, cities, reply);
      && (r.code == 0 <==> isFresh || (online && r.saved != []))
      && (r.saved != [] ==> OpenMeteo.FetchSpec(cities, reply) == Ok(r.saved))
      && (isFresh ==> r.saved == [])
  {
  }

  /** The weather collection after `save_city_weather_data(records)` with the clock at `clock`. */
  function CityWeatherAfter(online: bool, collection: seq<Doc>, clock: int, records: seq<Doc>): seq<Doc>
  {
    if records != [] && online then BulkWrite(collection, "name", CityWeatherOps(records, clock)) else collection
  }

  /** `main`, with the reply of the service and the clock as inputs. */
  method UpdateCities(store: Store, seed: Result<seq<SeedEntry>>, reply: OpenMeteo.Reply, now: int, fromIso: string -> Option<int>)
      returns (code: int)
    modifies store`cityMetadata, store`cityWeather, store`clock
    ensures var isFresh := store.online && IsFresh(LatestTimestamp(old(store.cityWeather), FetchedAtPath, fromIso), now, DefaultCityMaxAgeHours);
      UpdatedUnlessFresh(store, old(store.cityMetadata), old(store.cityWeather), old(store.clock), isFresh, seed, reply, code)
  {
    var isFresh := CheckDataFreshness(store, now, fromIso);
    code := UpdateUnlessFresh(store, isFresh, seed, reply);
  }

  /** `main` once the freshness check has answered. */
  method UpdateUnlessFresh(store: Store, isFresh: bool, seed: Result<seq<SeedEntry>>, reply: OpenMeteo.Reply) returns (code: int)
    modifies store`cityMetadata, store`cityWeather, store`clock
    ensures UpdatedUnlessFresh(store, old(store.cityMetadata), old(store.cityWeather), old(store.clock), isFresh, seed, reply, code)
  {
    if isFresh {
      assert UpdateSpec(true, store.online, LoadedCities(store.online, store.cityMetadata, seed), reply).code == 0;
      return 0;
    }
    code := LoadFetchAndSave(store, seed, reply);
  }

  /** The state `main` leaves: untouched when the data was fresh, else the
      metadata written back by the seed path, then the fetched records saved. */
  ghost predicate UpdatedUnlessFresh(store: Store, metadata0: seq<Doc>, weather0: seq<Doc>, clock0: int,
                                     isFresh: bool, seed: Result<seq<SeedEntry>>, reply: OpenMeteo.Reply, code: int)
    reads store
  {
    var cities := LoadedCities(store.online, metadata0, seed);
    var docs := SeedWriteBack(store.online, metadata0, seed);
    var clock1 := clock0 + |CityMetadataOps(docs, clock0)|;
    var run := UpdateSpec(isFresh, store.online, cities, reply);
    && code == run.code
    && if isFresh then store.cityMetadata == metadata0 && store.cityWeather == weather0 && store.clock == clock0
       else
         && store.cityMetadata == CityMetadataAfter(store.online, metadata0, clock0, docs)
         && store.clock == clock1 + |run.saved|
         && store.cityWeather == CityWeatherAfter(store.online, weather0, clock1, run.saved)
  }

  /** The part of `main` once the data is found stale. */
  method LoadFetchAndSave(store: Store, seed: Result<seq<SeedEntry>>, reply: OpenMeteo.Reply) returns (code: int)
    modifies store`cityMetadata, store`cityWeather, store`clock
    ensures var cities := LoadedCities(store.online, old(store.cityMetadata), seed);
      var docs := SeedWriteBack(store.online, old(store.cityMetadata), seed);
      var clock1 := old(store.clock) + |CityMetadataOps(docs, old(store.clock))|;
      var run := UpdateSpec(false, store.online, cities, reply);
      && code == run.code
      && store.cityMetadata == CityMetadataAfter(store.online, old(store.cityMetadata), old(store.clock), docs)
      && store.clock == clock1 + |run.saved|
      && store.cityWeather == CityWeatherAfter(store.online, old(store.cityWeather), clock1, run.saved)
  {
    ghost var metadata0, weather0, clock0 := store.cityMetadata, store.cityWeather, store.clock;
    var cities := LoadCityCoordinates(store, seed);
    assert cities == LoadedCities(store.online, metadata0, seed);
    assert store.cityWeather == weather0;
    ghost var clock1 := store.clock;
    code := FetchAndSave(store, cities, reply);
    assert store.cityWeather == CityWeatherAfter(store.online, weather0, clock1, UpdateSpec(false, store.online, cities, reply).saved);
  }

  /** The part of `main` after the cities are loaded. */
  method FetchAndSave(store: Store, cities: seq<Doc>, reply: OpenMeteo.Reply) returns (code: int)
    modifies store`cityWeather, store`clock
    ensures var run := UpdateSpec(false, store.online, cities, reply);
      && code == run.code
      && store.clock == old(store.clock) + |run.saved|
      && store.cityWeather == CityWeatherAfter(store.online, old(store.cityWeather), old(store.clock), run.saved)
  {
    if cities == [] {
      return 1;
    }
    var cityWeatherData := OpenMeteo.FetchCurrent(cities, reply);
    if cityWeatherData.Err? {
      return 1;
    }
    if cityWeatherData.value == [] {
      return 1;
    }
    var saved := store.SaveCityWeatherData(Some(cityWeatherData.value));
    if saved.Fail? {
      return 1;
    }
    return 0;
  }
}
