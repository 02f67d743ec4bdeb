# Weather-map collectors, modelled in Dafny

This project models the collection pipeline of a weather map of Indonesia. Each module models one source file:

- **`WeatherRepository`** (the MongoDB persistence helpers, `openmeteo/weather_repository.py`).
  - A `Store` class holds six collections as document sequences in insertion order.
  - The upserts (`UpdateOne(..., upsert=True)`) match the first document with the key and `$set` the new fields.
  - The grid weather snapshot replaces the collection.
  - A server that is down makes every operation raise.
  - The freshness helpers parse the greatest stored `fetched_at` and compare its age with a bound.
- **`OpenMeteo` and `FetchWeatherData`** (`openmeteo/fetch_weather_data.py`).
  - The grid loader reads the metadata collection first. Failing that, it reads the seed file `gridData_1degree.json` through its brace scan. Failing that too, it builds the 846-point fallback grid.
  - The positional extraction of the five current variables.
  - The batched fetch: slices of 50, three attempts per slice, a 60/120/240 s backoff on rate-limit errors, and a 5 s pause between batches.
- **`UpdateCityWeather`** (`backend/collectors/update_city_weather.py`): the city loader, fed by the metadata collection or by the `namaKota.json` seed, the freshness check and the decision chain of `main`.
- **`PelabuhanWeather`** (`backend/collectors/pelabuhan_weather.py`).
  - `create_slug`.
  - The two port loaders: the metadata collection, and the `pelabuhan.json` scan.
  - The three-way outcome of one port fetch (success, failed, error).
  - The counting loop of `main`.
- **`CuacaPelabuhan`** (`pelabuhan/cuaca_pelabuhan.py`): the BMKG slug generator, the walk of the reference table in `_payload.json`, and the per-slug retry loop.
- **`RunAllCollectors`** (`backend/collectors/run_all_collectors.py`): three attempts per collector with 5 s and 10 s pauses, and one result per collector.
- **`GenerateGrid`** (`openmeteo/generate_grid_1degree.py`): the 1-degree grid file. It is proved to read back, through the grid loader, as exactly the fallback grid.
- **`ExtractFailed` and `CreatePortData`** (`backend/collectors/pelabuhan/`): the failed-entry filter with its error histogram, and the success-only, name-keyed collapse.

Helper modules:

- **`Common`**: Option, Result, a filter.
- **`Json`**: Python/JSON values.
  - Truthiness, `dict.get` and subscripts, including negative list indices.
  - `float()` and hash keys.
- **`Text`**: ASCII case mapping, `re.sub` run replacement, strip, split/join, number formatting and parsing.

The network is replaced by scripted replies:

- `remote(batch, attempt)` for the Open-Meteo client;
- `replies(i)` for the BMKG port API;
- `calls(attempt)` for a collector run.

The other inputs work the same way:

- `datetime.fromisoformat` is an oracle `fromIso`.
- `json.loads` is an oracle `jsonLoads`.
- File contents are passed in as decoded values.
- `datetime.utcnow()` is the store's `clock` counter. `now` is an integer number of seconds.
- `time.sleep` calls are returned as a log of durations.

Two behaviours of the code worth knowing:

- `pelabuhan_weather.main` upserts every outcome, failed and error ones included.
- The rate-limit backoff of `fetch_weather_data_batched` cannot fire, as `FetchWeatherData.OnlyPausesAsWritten` shows. `fetch_weather_data` catches every error of the remote call and returns `[]`. The only error that leaves it is the `KeyError` for a missing `lat`/`lon`, and that text mentions no rate limit. The general retry loop is still modelled and proved for any attempt results (`FetchWeatherData.BatchSleepSchedule`).

## Model

| member | source | states |
|---|---|---|
| Json.PyFloat | openmeteo/weather_repository.py:82 | `float(v)` succeeds exactly on numbers, booleans and decimal strings and gives their value; anything else raises |
| Json.Wrap | pelabuhan/cuaca_pelabuhan.py:55-69 | a Python list index: `-n <= i < n` is accepted, a negative one counts from the end, anything else is an IndexError |
| Json.HashKey | backend/collectors/pelabuhan/extract_failed_data.py:43 | lists and dicts are unhashable and have no key; every other value except a number is its own key |
| Json.NumbersShareKey | backend/collectors/pelabuhan/extract_failed_data.py:43 | two numbers are the same dict key exactly when their values are equal, so `1`, `1.0` and `True` collide |
| Common.FilterMembers | backend/collectors/pelabuhan/extract_failed_data.py:14-15 | an element is in the filtered list exactly when it is in the list and passes the test |
| WeatherRepository.EnsureIterable | openmeteo/weather_repository.py:37-40 | None and the empty list give `[]`; a list is kept as it is |
| WeatherRepository.Stamp | openmeteo/weather_repository.py:60 | a stamped copy has every field of the record, plus `updated_at` set to the current time |
| WeatherRepository.FindFirst | openmeteo/weather_repository.py:62 | the filter `{field: key}` matches the first document whose field equals the key (a missing field reads as null) |
| WeatherRepository.Upsert | openmeteo/weather_repository.py:62 | definition of one `UpdateOne(..., upsert=True)`: `$set` into the first document with the key, or a new document with the key and the fields; `UpsertEffect` and `UpsertLeavesOne` state its effect |
| WeatherRepository.UpsertEffect | openmeteo/weather_repository.py:62 | an upsert leaves every document with another key unchanged, in place; the document with the key holds every `$set` field; when some document has the key, nothing is added and the first such document becomes itself merged with the `$set` fields, keeping its other fields; otherwise at most one document is added |
| WeatherRepository.UpsertKeepsUniqueKeys | openmeteo/weather_repository.py:143-148 | upserts whose `$set` keeps the key keep the keys of a collection unique |
| WeatherRepository.BulkWrite | openmeteo/weather_repository.py:66 | definition of `bulk_write`: the operations applied one after the other |
| WeatherRepository.BulkWriteKeepsUniqueKeys | openmeteo/weather_repository.py:147-148 | a bulk write of such upserts keeps the keys unique |
| WeatherRepository.UpsertLeavesOne | openmeteo/weather_repository.py:139-148 | after an upsert exactly one document has the key, and it carries every field of `$set` |
| WeatherRepository.CityMetadataOpsConcat | openmeteo/weather_repository.py:53-63 | the operations for a list are those for its parts, in order: skipping one record never aborts the rest |
| WeatherRepository.CityMetadataSkips | openmeteo/weather_repository.py:55-63 | a city record gives an upsert keyed by its name exactly when its name is truthy and both coordinates are not None |
| WeatherRepository.GridMetadataDocsShape | openmeteo/weather_repository.py:76-84 | each written grid document is a kept point, in order, with a `name` and an `updated_at` |
| WeatherRepository.GridMetadataEmptyIff | openmeteo/weather_repository.py:80-88 | there is nothing to write, so the collection is not cleared, exactly when no point has both `lat` and `lon` |
| WeatherRepository.GridPointNamed | openmeteo/weather_repository.py:82 | `setdefault` keeps an existing name, and only fills a missing one with `"lat, lon"` at one decimal |
| WeatherRepository.GridMetadataOfNamedPoints | openmeteo/weather_repository.py:76-84 | points that already have a name and float coordinates are written as they are, only stamped |
| WeatherRepository.PortMetadataOpsConcat | openmeteo/weather_repository.py:98-109 | port metadata operations of a list are those of its parts, in order |
| WeatherRepository.PortMetadataKeys | openmeteo/weather_repository.py:100-108 | every port metadata upsert is keyed by a truthy `slug`-or-`id`, and its `$set` keeps that key unless the record has a falsy `slug` beside its `id` |
| WeatherRepository.PortWeatherDoc | openmeteo/weather_repository.py:172-174 | the port weather document keeps every field of the port and always has `slug` and `port_name` |
| WeatherRepository.StampAll | openmeteo/weather_repository.py:159-160 | every grid point is stamped, one per input point |
| WeatherRepository.SameCityTwice | openmeteo/weather_repository.py:139-148 | saving the same city twice leaves one document for its name, holding the later values and the later `updated_at` |
| WeatherRepository.PortSaveTouchesOnlyItsSlug | openmeteo/weather_repository.py:170-181 | re-saving a port changes only the document with its slug, in place; at most one document is added |
| WeatherRepository.PyWalkString | openmeteo/weather_repository.py:243-250 | the path walk over dicts reaches a string exactly when the path exists in the document with a string at its end |
| WeatherRepository.SortsBeforeTransitive | openmeteo/weather_repository.py:238 | the descending sort used by `find_one` is a strict order |
| WeatherRepository.SortsBeforeIrreflexive | openmeteo/weather_repository.py:238 | no value sorts before itself |
| WeatherRepository.FindLatest | openmeteo/weather_repository.py:236-240 | `find_one` with `$exists` and a descending sort finds a document exactly when one has the path, and no other such document sorts after it |
| WeatherRepository.ParseIsoDatetime | openmeteo/weather_repository.py:205-219 | definition of `_parse_iso_datetime`: a falsy value gives None, a string is parsed, a truthy non-string raises TypeError |
| WeatherRepository.ParseIsoCandidates | openmeteo/weather_repository.py:205-219 | the empty text gives None; a parsed time is what `fromisoformat` gives for the text itself, or else, for text ending in `Z`, for the text with that `Z` made `+00:00`, or else, for any other text, for the text with every `Z` replaced; text ending in `Z` whose rewrite fails gives None |
| WeatherRepository.ParseIsoNeverRaisesOnText | openmeteo/weather_repository.py:205-219 | the parse never raises on a string or None, and gives None for None and "" |
| WeatherRepository.IsFresh | openmeteo/weather_repository.py:276-297 | definition of the freshness test: a timestamp exists and its age in hours is at most the bound |
| WeatherRepository.FreshEarlier | openmeteo/weather_repository.py:222-226 | data fresh at time `now` is fresh at every earlier time |
| WeatherRepository.LatestTimestamp | openmeteo/weather_repository.py:229-251 | definition of `_get_latest_timestamp`: the document `find_one` picks, its value parsed when it is a string |
| WeatherRepository.LatestTimestampMeaning | openmeteo/weather_repository.py:229-251 | no document with the path gives None, as does a leaf that is no string; otherwise the greatest string value is parsed |
| WeatherRepository.NoStringLeaf | openmeteo/weather_repository.py:249-251 | when the walk does not end on a string, neither does the stored value |
| WeatherRepository.GridMetadataErrStays | openmeteo/weather_repository.py:82 | a point whose coordinates `float()` refuses aborts the whole grid metadata save |
| WeatherRepository.LatestIn | openmeteo/weather_repository.py:241-251 | the walk loop of `_get_latest_timestamp` computes the latest timestamp |
| WeatherRepository.Store.constructor | openmeteo/weather_repository.py:19-34 | the store stands for a connection to a fresh, empty database: it starts with six empty collections (the cited lines only open the client and take the collection handles) |
| WeatherRepository.Store.SaveCityMetadata | openmeteo/weather_repository.py:46-66 | the kept records are upserted by name, in order, each stamped; nothing else changes, and an empty input touches nothing |
| WeatherRepository.Store.SaveGridMetadata | openmeteo/weather_repository.py:69-88 | the collection is replaced by the kept, named and stamped points when there is one, and untouched otherwise; a bad coordinate raises before any change |
| WeatherRepository.Store.SavePortMetadata | openmeteo/weather_repository.py:91-112 | the kept ports are upserted by slug, in order, each stamped; nothing else changes |
| WeatherRepository.Store.SaveCityWeatherData | openmeteo/weather_repository.py:133-148 | every city is upserted by name, in order, each stamped; empty input changes nothing |
| WeatherRepository.Store.SaveGridWeatherData | openmeteo/weather_repository.py:151-161 | non-empty input replaces the collection by the stamped points, and the caller's points carry the stamp too; empty input changes nothing |
| WeatherRepository.Store.SavePortWeatherData | openmeteo/weather_repository.py:164-181 | every port result is upserted by slug, in order, each stamped; empty input changes nothing |
| WeatherRepository.Store.GetGridMetadata | openmeteo/weather_repository.py:120-122 | the grid metadata documents, or the server error |
| WeatherRepository.Store.GetCityMetadata | openmeteo/weather_repository.py:115-117 | the city metadata documents, or the server error |
| WeatherRepository.Store.GetPortMetadata | openmeteo/weather_repository.py:125-127 | the port metadata documents, or the server error |
| WeatherRepository.Store.GetLatestCityFetchTime | openmeteo/weather_repository.py:254-256 | the latest `weather_data.fetched_at` of the city weather |
| WeatherRepository.Store.GetLatestGridFetchTime | openmeteo/weather_repository.py:259-261 | the latest `weather_data.fetched_at` of the grid weather |
| WeatherRepository.Store.GetLatestPortTime | openmeteo/weather_repository.py:264-273 | the greatest top-level `fetched_at` of the port weather, parsed; a non-string value raises TypeError |
| WeatherRepository.Store.IsCityWeatherFresh | openmeteo/weather_repository.py:276-281 | fresh exactly when the latest city fetch is within the bound |
| WeatherRepository.Store.IsGridWeatherFresh | openmeteo/weather_repository.py:284-289 | fresh exactly when the latest grid fetch is within the bound |
| WeatherRepository.Store.IsPortWeatherFresh | openmeteo/weather_repository.py:292-297 | fresh exactly when the latest port fetch is within the bound |
| OpenMeteo.Trunc | openmeteo/fetch_weather_data.py:188 | `int(x)` truncates toward zero |
| OpenMeteo.ExtractCurrentVars | openmeteo/fetch_weather_data.py:148-174 | variable `k` is filled exactly when the response has more than `k` variables, with the value at position `k` |
| OpenMeteo.WeatherData | openmeteo/fetch_weather_data.py:176-198 | each weather field is variable `k` of the response, or None; `fetched_at` is the processing time |
| OpenMeteo.WeatherDataOfExtracted | backend/collectors/update_city_weather.py:135-175 | reading the filled `current_vars` back gives the positional fields |
| OpenMeteo.FetchSpec | openmeteo/fetch_weather_data.py:115-205 | definition of `fetch_weather_data`'s result: KeyError for a location without `lat` or `lon`, [] when the call raises or a location lacks `name`, otherwise one record per response |
| OpenMeteo.FetchPairs | openmeteo/fetch_weather_data.py:139-141 | output `i` pairs location `i` with response `i`, and there are at most min(#responses, #locations) outputs |
| OpenMeteo.FetchErrors | openmeteo/fetch_weather_data.py:115-122 | empty input gives `[]`; the fetch raises exactly when some location lacks `lat` or `lon` |
| OpenMeteo.FetchCurrent | openmeteo/fetch_weather_data.py:115-205 | the fetch gives, for every location list and client reply, the specified records: `[]` when the client raises, a KeyError for a location without `lat` or `lon` |
| OpenMeteo.ProcessResponses | openmeteo/fetch_weather_data.py:137-201 | the response loop builds one record per response that has a location; a location without `name` is caught and gives `[]` |
| OpenMeteo.ProcessOne | openmeteo/fetch_weather_data.py:142-198 | the body of the loop gives the processed record |
| OpenMeteo.Record | backend/collectors/update_city_weather.py:177-186 | the `processed_location` dict built from `current_vars` is the processed record |
| FetchWeatherData.MetadataPointsShape | openmeteo/fetch_weather_data.py:30-42 | the metadata path keeps, in order, exactly the documents with (`lat` or `latitude`) and (`lon` or `longitude`) |
| FetchWeatherData.MetadataPointName | openmeteo/fetch_weather_data.py:33 | a truthy name is kept; otherwise the name is `"lat, lon"` at one decimal, `0.0` standing for a missing one |
| FetchWeatherData.MetadataNullLatRaises | openmeteo/fetch_weather_data.py:33 | a document without a name whose `lat` is null makes `float(None)` raise |
| FetchWeatherData.BraceSpan | openmeteo/fetch_weather_data.py:48-61 | definition of the brace span, `content[start:end]` after the scan; `BraceSpanMeaning` states what it is |
| FetchWeatherData.BraceScan | openmeteo/fetch_weather_data.py:48-61 | the scan loop computes the brace span |
| FetchWeatherData.BraceSpanMeaning | openmeteo/fetch_weather_data.py:48-61 | the span runs from the first `{` to the `}` that brings the depth back to 0; with no closing brace it is empty |
| FetchWeatherData.ParseListLength | openmeteo/fetch_weather_data.py:64-65 | a converted list has one value per piece, each the value of its piece |
| FetchWeatherData.SeedPoints | openmeteo/fetch_weather_data.py:67-69 | the seed lists are cut to the shorter length |
| FetchWeatherData.BuildSeedPoints | openmeteo/fetch_weather_data.py:67-76 | the loop builds the seed points, and `metadata_docs` equals `grid_points` |
| FetchWeatherData.SeedGridNonEmpty | openmeteo/fetch_weather_data.py:64-68 | a seed file that loads gives at least one point |
| FetchWeatherData.FallbackGrid | openmeteo/fetch_weather_data.py:91-97 | the fallback grid has 18 × 47 = 846 points |
| FetchWeatherData.FallbackGridCovers | openmeteo/fetch_weather_data.py:93-96 | every integral pair in lat −11..6, lon 95..141 is point `(lat+11)·47 + (lon−95)` |
| FetchWeatherData.FallbackGridBounds | openmeteo/fetch_weather_data.py:93-96 | every fallback point lies within those bounds, in lat-major order |
| FetchWeatherData.FallbackPointIsSeedPoint | openmeteo/fetch_weather_data.py:74-75 | a fallback point equals the seed point of the same coordinates, name included |
| FetchWeatherData.BuildFallbackGrid | openmeteo/fetch_weather_data.py:91-97 | the nested loops build the fallback grid, and `metadata_docs` equals `grid_points` |
| FetchWeatherData.SeedOrFallbackSavable | openmeteo/fetch_weather_data.py:81-85 | the seeded or fallback points are written to the grid metadata exactly as they are, only stamped |
| FetchWeatherData.LoadGridCoordinates | openmeteo/fetch_weather_data.py:22-104 | a non-empty metadata collection gives its points, and the collection and the clock are untouched; otherwise the seed or fallback points are returned and saved, and the clock advances by one stamp per point; a failed read counts as no metadata |
| FetchWeatherData.SeedAndSave | openmeteo/fetch_weather_data.py:44-104 | the seed or fallback points are saved as the new grid metadata, stamped from the clock before the save, when the store is up; the clock advances by one stamp per point either way |
| FetchWeatherData.LoadSeedOrFallback | openmeteo/fetch_weather_data.py:44-97 | the seed file's points, or the fallback grid when the file is missing or does not load |
| FetchWeatherData.MetadataGridPointsLoop | openmeteo/fetch_weather_data.py:31-40 | the comprehension over the metadata computes the metadata points |
| FetchWeatherData.MetadataErrStays | openmeteo/fetch_weather_data.py:31-40 | one document whose conversion raises aborts the whole comprehension |
| FetchWeatherData.BatchCountIsCeiling | openmeteo/fetch_weather_data.py:212 | the batch count is ⌈n/b⌉ |
| FetchWeatherData.BatchStart | openmeteo/fetch_weather_data.py:224-225 | every batch starts inside the list |
| FetchWeatherData.Slice | openmeteo/fetch_weather_data.py:224-226 | every batch has between 1 and `batch_size` locations |
| FetchWeatherData.SlicesCover | openmeteo/fetch_weather_data.py:222-226 | the batches from `k` on, concatenated, are the locations from `k·b` on |
| FetchWeatherData.RunFrom | openmeteo/fetch_weather_data.py:222-267 | definition of the run from batch `k`: each batch's attempts, then the 5 s pause unless it is the last |
| FetchWeatherData.BatchedSpec | openmeteo/fetch_weather_data.py:207-274 | definition of `fetch_weather_data_batched`'s result: [] for no locations, ZeroDivisionError for a batch size of 0, otherwise the run from batch 0 |
| FetchWeatherData.BatchesPartition | openmeteo/fetch_weather_data.py:222-226 | the batches are consecutive slices covering all locations |
| FetchWeatherData.Attempts | openmeteo/fetch_weather_data.py:234-261 | a batch gets at most three attempts |
| FetchWeatherData.AttemptsFirstSuccess | openmeteo/fetch_weather_data.py:234-261 | a batch contributes the first non-empty result of its attempts, or nothing |
| FetchWeatherData.AttemptsSleeps | openmeteo/fetch_weather_data.py:252-255 | the pauses are `delay·2^j`, one per rate-limit error, at most one per attempt |
| FetchWeatherData.BatchSleepSchedule | openmeteo/fetch_weather_data.py:232-255 | a batch's pauses are a prefix of 60, 120, 240 s; there can be three, so the last attempt may sleep as well |
| FetchWeatherData.FetchWeatherDataBatched | openmeteo/fetch_weather_data.py:207-274 | the batch loop computes the batched result and its pauses; every error of a fetch attempt is caught and retried, and only a batch size of 0 raises, with ZeroDivisionError |
| FetchWeatherData.RunNextBatch | openmeteo/fetch_weather_data.py:223-267 | one pass of the batch loop |
| FetchWeatherData.RunBatch | openmeteo/fetch_weather_data.py:230-261 | one batch's attempts, against the scripted client |
| FetchWeatherData.RetryLoop | openmeteo/fetch_weather_data.py:231-261 | the retry loop computes the attempts' result and pauses |
| FetchWeatherData.Attempt | openmeteo/fetch_weather_data.py:235-261 | one pass of the retry loop, including the doubling of the delay |
| FetchWeatherData.RunFromBound | openmeteo/fetch_weather_data.py:222-238 | the batches from `k` on give at most as many records as they hold locations |
| FetchWeatherData.BatchedBound | openmeteo/fetch_weather_data.py:207-274 | the batched fetch never gives more records than locations |
| FetchWeatherData.FetchErrorsAreNotRateLimits | openmeteo/fetch_weather_data.py:121-122 | the only errors `fetch_weather_data` lets through are no rate-limit errors |
| FetchWeatherData.NotContains | openmeteo/fetch_weather_data.py:252 | a text that lacks the first letter of a word, or never has its first two letters in a row, does not contain the word |
| FetchWeatherData.OnlyPausesAsWritten | openmeteo/fetch_weather_data.py:252-267 | with the client as written, every pause of the batched fetch is a 5 s pause between batches |
| FetchWeatherData.BatchNeverBacksOff | openmeteo/fetch_weather_data.py:231-255 | against `fetch_weather_data` as written, the retry loop of a batch never sleeps |
| FetchWeatherData.NoBackoff | openmeteo/fetch_weather_data.py:250-255 | attempts that never fail on a rate limit never sleep |
| UpdateCityWeather.CityOf | backend/collectors/update_city_weather.py:50-54 | a metadata city is `name`, and `latitude`/`longitude` renamed to `lat`/`lon` |
| UpdateCityWeather.MetadataCitiesMeaning | backend/collectors/update_city_weather.py:48-59 | the metadata path gives, at most one per document, exactly the renamed cities of the documents whose latitude and longitude are not None |
| UpdateCityWeather.MetadataCitiesConcat | backend/collectors/update_city_weather.py:48-59 | the metadata filter keeps input order |
| UpdateCityWeather.SeedCity | backend/collectors/update_city_weather.py:74 | a seed city is named by its JSON key and has `lat` and `lon` |
| UpdateCityWeather.SeedDoc | backend/collectors/update_city_weather.py:75-77 | a seed metadata doc is the entry with `name` defaulting to its JSON key |
| UpdateCityWeather.SeedPairs | backend/collectors/update_city_weather.py:69-77 | entries lacking a coordinate are skipped; each kept entry gives one city and one metadata doc, in order |
| UpdateCityWeather.SeedCityCoordinates | backend/collectors/update_city_weather.py:70-74 | a seed city's coordinates are those of its entry |
| UpdateCityWeather.SeedSpec | backend/collectors/update_city_weather.py:62-91 | definition of the seed loop's result: an entry that is no object raises AttributeError, otherwise the kept cities and their documents |
| UpdateCityWeather.ReadSeed | backend/collectors/update_city_weather.py:67-77 | the seed loop computes the seed cities and documents, or the error raised |
| UpdateCityWeather.LoadedCitiesHaveKeys | backend/collectors/update_city_weather.py:48-77 | every loaded city has exactly `name`, `lat` and `lon` |
| UpdateCityWeather.WriteBackMatchesCities | backend/collectors/update_city_weather.py:79-86 | the seed path writes one metadata doc per city; the metadata path writes none |
| UpdateCityWeather.LoadCityCoordinates | backend/collectors/update_city_weather.py:40-91 | metadata cities when there are any; else the seed cities, with their docs saved (a failed save changes nothing returned); any other seed error gives `[]` |
| UpdateCityWeather.CityFetch | backend/collectors/update_city_weather.py:101-190 | the city fetch on loaded cities never raises, gives `[]` for none, and record `i` is city `i` |
| UpdateCityWeather.CheckDataFreshness | backend/collectors/update_city_weather.py:192-203 | a freshness check that raises counts as stale |
| UpdateCityWeather.UpdateSpec | backend/collectors/update_city_weather.py:205-250 | the exit code is 0 or 1, and a save happens only for stale data and some cities |
| UpdateCityWeather.UpdateOutcomes | backend/collectors/update_city_weather.py:205-250 | `main` returns 0 exactly when the data is fresh or fetched records were saved; fresh data means no fetch and no save |
| UpdateCityWeather.UpdateCities | backend/collectors/update_city_weather.py:205-250 | `main` leaves the store untouched when fresh, else writes back seed metadata and then saves the fetched records |
| UpdateCityWeather.UpdateUnlessFresh | backend/collectors/update_city_weather.py:213-250 | the same, once the freshness check has answered |
| UpdateCityWeather.LoadFetchAndSave | backend/collectors/update_city_weather.py:217-250 | load, fetch and save for stale data |
| UpdateCityWeather.FetchAndSave | backend/collectors/update_city_weather.py:226-250 | no cities or an empty fetch return 1 without saving; otherwise the records are saved, and a failed save returns 1 |
| PelabuhanWeather.CreateSlug | backend/collectors/pelabuhan_weather.py:122-127 | definition of `create_slug`: symbols become spaces, the ends are stripped, each whitespace run becomes one `-`, and the text is lower-cased; its properties are the two lemmas below |
| PelabuhanWeather.BlankSymbols | backend/collectors/pelabuhan_weather.py:125 | every character other than an ASCII letter, digit or whitespace becomes a space |
| PelabuhanWeather.CreateSlugWellFormed | backend/collectors/pelabuhan_weather.py:122-127 | a slug uses only `[a-z0-9-]`, has no `-` at either end and no `--` |
| PelabuhanWeather.CreateSlugFixesSlugs | backend/collectors/pelabuhan_weather.py:122-127 | a well-formed slug is its own slug |
| PelabuhanWeather.SlugOr | backend/collectors/pelabuhan_weather.py:39 | definition of the loader's `slug or create_slug(name or '')`; a truthy name that is no string raises TypeError |
| PelabuhanWeather.SlugOrShape | backend/collectors/pelabuhan_weather.py:39 | the loader keeps a truthy stored slug; a falsy one becomes `create_slug(name)` for a string name and "" for a falsy name |
| PelabuhanWeather.SlugOrRaises | backend/collectors/pelabuhan_weather.py:39 | the loader's fallback raises exactly when there is no slug and the name is truthy but no string |
| PelabuhanWeather.SlugOrWellFormed | backend/collectors/pelabuhan_weather.py:39 | a slug the loader computes is a string and a well-formed slug |
| PelabuhanWeather.MongoPort | backend/collectors/pelabuhan_weather.py:33-47 | definition of the port one metadata document gives, None when a coordinate is missing, or the error its slug or `float()` raises |
| PelabuhanWeather.PortRecordShape | backend/collectors/pelabuhan_weather.py:40-47 | a loaded port has `id`, `name`, `lat`, `lon` and `slug`, with float coordinates |
| PelabuhanWeather.MongoPortShape | backend/collectors/pelabuhan_weather.py:33-47 | a port read from the metadata has that shape, its `lat` taken from `lat` unless falsy, else `latitude` |
| PelabuhanWeather.MongoPortSkips | backend/collectors/pelabuhan_weather.py:35-37 | a document is skipped exactly when `lat or latitude` or `lon or longitude` is None, so a `lat` of 0.0 with no `latitude` is skipped |
| PelabuhanWeather.MongoPortsMeaning | backend/collectors/pelabuhan_weather.py:32-48 | the metadata path gives at most one port per document, each of the loaded shape |
| PelabuhanWeather.LoadPortsFromMongo | backend/collectors/pelabuhan_weather.py:22-51 | the loop computes the metadata ports; a server that is down gives none |
| PelabuhanWeather.ErrStays | backend/collectors/pelabuhan_weather.py:32-48 | a document whose conversion raises aborts the whole loop |
| PelabuhanWeather.PortIndices | backend/collectors/pelabuhan_weather.py:78-83 | the port positions are strings containing "Pelabuhan" followed by two numbers, in increasing order |
| PelabuhanWeather.PortIndicesComplete | backend/collectors/pelabuhan_weather.py:78-83 | every such position is found |
| PelabuhanWeather.JsonPort | backend/collectors/pelabuhan_weather.py:85-93 | a scanned port is `PORT_<k+1>` (three digits), with its name, coordinates and slug |
| PelabuhanWeather.JsonMetadataDoc | backend/collectors/pelabuhan_weather.py:94-101 | its metadata doc has the same slug, name and coordinates |
| PelabuhanWeather.ScanPrefixIndices | backend/collectors/pelabuhan_weather.py:78-101 | the scan gives port `k` and doc `k` for the `k`-th port position |
| PelabuhanWeather.ScanPairs | backend/collectors/pelabuhan_weather.py:85-101 | ids are PORT_001, PORT_002, … in scan order, with one metadata doc per port |
| PelabuhanWeather.ScanComplete | backend/collectors/pelabuhan_weather.py:78-93 | every "Pelabuhan" string followed by two numbers gives a port of that name |
| PelabuhanWeather.ScanSound | backend/collectors/pelabuhan_weather.py:78-93 | every port comes from such a string, with its slug |
| PelabuhanWeather.ScanSpec | backend/collectors/pelabuhan_weather.py:69-101 | definition of the scan for each kind of top-level value: the list scan for a list, the key scan for an object, nothing for null or a string, TypeError for a number or boolean |
| PelabuhanWeather.ObjectScanMeaning | backend/collectors/pelabuhan_weather.py:78-82 | an object's scan finds no port, and raises `KeyError(i+1)` exactly when some key before the last two holds "Pelabuhan", `i` being the first such key |
| PelabuhanWeather.ScanKeys | backend/collectors/pelabuhan_weather.py:78-82 | the scan loop over an object's keys, in file order, computes that result |
| PelabuhanWeather.ScanPorts | backend/collectors/pelabuhan_weather.py:76-101 | the scan loop computes the scan of the file's top-level value |
| PelabuhanWeather.LoadPortsFromJson | backend/collectors/pelabuhan_weather.py:54-112 | the file's ports, with their metadata docs saved; no file gives none, a refused file raises |
| PelabuhanWeather.ScannedPortShape | backend/collectors/pelabuhan_weather.py:85-93 | a scanned port has the loaded shape and a well-formed slug |
| PelabuhanWeather.LoadPelabuhanData | backend/collectors/pelabuhan_weather.py:103-119 | the metadata ports when there are any, with the store untouched; only otherwise the file's, whose documents are upserted by slug into the metadata collection, advancing the clock by one stamp per document written |
| PelabuhanWeather.Outcome | backend/collectors/pelabuhan_weather.py:142-169 | every outcome carries the name, slug, coordinates, payload and status, and an error text exactly when not successful |
| PelabuhanWeather.FetchSlug | backend/collectors/pelabuhan_weather.py:133 | definition of the fetch's `slug or create_slug(port_name)`, where the name is not defaulted |
| PelabuhanWeather.FetchSlugRaises | backend/collectors/pelabuhan_weather.py:133 | the fetch's fallback raises exactly when the slug is falsy and the name is no string, None included; otherwise a truthy slug is kept and a missing one is the well-formed slug of the name |
| PelabuhanWeather.SlugFallbacksDiffer | backend/collectors/pelabuhan_weather.py:133 | this fallback and the loader's one at line 39 differ exactly for a falsy slug beside a falsy name that is no string, where the loader gives "" and the fetch raises |
| PelabuhanWeather.Classify | backend/collectors/pelabuhan_weather.py:140-169 | definition of the three-way classification of a reply: success, failed, error |
| PelabuhanWeather.FetchPortWeather | backend/collectors/pelabuhan_weather.py:130-170 | definition of `fetch_port_weather`: the error of the slug fallback, which the handler at line 164 raises again, or one outcome |
| PelabuhanWeather.FetchPortWeatherRaises | backend/collectors/pelabuhan_weather.py:130-170 | the fetch raises exactly when the slug is falsy and the name is no string; otherwise it gives one outcome with the slug (kept, or `create_slug(name)`), the name, the coordinates and the classified status |
| PelabuhanWeather.ClassifyMeaning | backend/collectors/pelabuhan_weather.py:140-169 | `success` with the payload iff HTTP 200 with a JSON body; `failed` with `HTTP <code>` iff another code; `error`, with the exception text, otherwise; only `success` has no error and a payload |
| PelabuhanWeather.PortResultsMeaning | backend/collectors/pelabuhan_weather.py:186-203 | the loop gives one result per port, in order, each its own fetch's outcome |
| PelabuhanWeather.PortResultsErrStays | backend/collectors/pelabuhan_weather.py:186-191 | a fetch that raises ends the loop with its error |
| PelabuhanWeather.NamelessMongoPortRaises | backend/collectors/pelabuhan_weather.py:33-47 | a metadata document with coordinates but neither a slug nor a string name loads as a port with slug "", and fetching that port raises (lines 133 and 164), so nothing is saved |
| PelabuhanWeather.PortResultsRaise | backend/collectors/pelabuhan_weather.py:186-191 | the loop of `main` raises exactly when some port has neither a truthy slug nor a string name |
| PelabuhanWeather.FetchAndSave | backend/collectors/pelabuhan_weather.py:186-228 | a fetch that raises, for a port with neither a truthy slug nor a string name, ends the run with the weather collection and the clock untouched; otherwise one result and one 500 ms pause per port, counted, and every result upserted by slug, stamped from the clock before the save, which advances it by one stamp per result |
| PelabuhanWeather.FetchAll | backend/collectors/pelabuhan_weather.py:186-203 | the counting loop: one result per port, `successful` counts the successes, `successful + failed == len(ports)` |
| PelabuhanWeather.CollectPorts | backend/collectors/pelabuhan_weather.py:173-228 | when the metadata collection gives no ports, the file's documents are saved to it first, advancing the clock, and it is otherwise untouched; a loader error or no ports then ends the run before any fetch; a fetch that raises ends it with the weather collection and the clock as the load left them; otherwise every port is fetched, with one 500 ms pause per port, and every result is upserted by slug, stamped from the clock as the load left it |
| PelabuhanWeather.RunLoaded | backend/collectors/pelabuhan_weather.py:177-228 | given the loader's answer, an error or no ports end the run with the weather collection and the clock untouched, as does a fetch that raises; otherwise one result and one 500 ms pause per port, and the results are upserted by slug, stamped from the clock before the save, which advances it by one stamp per result |
| CuacaPelabuhan.GenerateSlug | pelabuhan/cuaca_pelabuhan.py:32-45 | definition of `generate_slug_from_name`: no string gives ""; otherwise lower-cased, each run outside `[a-z0-9]` made one `-`, edge hyphens stripped; properties in the lemmas below |
| CuacaPelabuhan.GenerateSlugWellFormed | pelabuhan/cuaca_pelabuhan.py:32-45 | whatever the name, the slug uses only `[a-z0-9-]`, has no `-` at either end and no `--` |
| CuacaPelabuhan.GenerateSlugFixesSlugs | pelabuhan/cuaca_pelabuhan.py:40-45 | a well-formed slug is its own slug |
| CuacaPelabuhan.GenerateSlugExample | pelabuhan/cuaca_pelabuhan.py:35 | "Pelabuhan Pomalaa/Dawi-dawi" gives "pelabuhan-pomalaa-dawi-dawi" |
| CuacaPelabuhan.GenerateSlugIdempotent | pelabuhan/cuaca_pelabuhan.py:32-45 | slugging a slug changes nothing |
| CuacaPelabuhan.UnionAllMeaning | pelabuhan/cuaca_pelabuhan.py:57-74 | the nested loops add exactly the slugs of every part, and succeed exactly when every part does |
| CuacaPelabuhan.WalkSpec | pelabuhan/cuaca_pelabuhan.py:47-80 | definition of the walk of `parse_bmkg_payload` through `payload[4]`, the provinces and their ports; `WalkSound` and `WalkComplete` state what it finds |
| CuacaPelabuhan.WalkSound | pelabuhan/cuaca_pelabuhan.py:55-74 | every slug found is the non-empty slug of `payload[payload[port_ref]['name']]` for a port of a province of `payload[4]` |
| CuacaPelabuhan.WalkComplete | pelabuhan/cuaca_pelabuhan.py:55-74 | every such harbour with a non-empty slug is found |
| CuacaPelabuhan.ParsedSlugsFound | pelabuhan/cuaca_pelabuhan.py:51-80 | when the walk completes, the slugs are exactly those of the harbours it reaches |
| CuacaPelabuhan.ParsedSlugsWellFormed | pelabuhan/cuaca_pelabuhan.py:72-74 | no slug found is empty, and each is well formed |
| CuacaPelabuhan.ParseBmkgPayload | pelabuhan/cuaca_pelabuhan.py:47-80 | the slugs without duplicates; an IndexError, KeyError or TypeError anywhere gives `[]` |
| CuacaPelabuhan.WalkPayload | pelabuhan/cuaca_pelabuhan.py:55-75 | the outer loop computes the walk |
| CuacaPelabuhan.WalkProvince | pelabuhan/cuaca_pelabuhan.py:59-74 | one province's ports are added to the slugs found |
| CuacaPelabuhan.WalkPorts | pelabuhan/cuaca_pelabuhan.py:64-74 | the inner loop adds each port's non-empty slug |
| CuacaPelabuhan.PortName | pelabuhan/cuaca_pelabuhan.py:66-69 | the double indirection to a port's name |
| CuacaPelabuhan.ListOfSet | pelabuhan/cuaca_pelabuhan.py:80 | `list(all_slugs)` holds each slug once |
| CuacaPelabuhan.DefaultHarbor | pelabuhan/cuaca_pelabuhan.py:22 | definition of `slug.replace('-', ' ').title()`, the harbour name used when an answer has none |
| CuacaPelabuhan.DefaultHarborRoundTrip | pelabuhan/cuaca_pelabuhan.py:22 | the default harbour name, lower-cased with spaces made hyphens again, is the slug |
| CuacaPelabuhan.Answer | pelabuhan/cuaca_pelabuhan.py:21-23 | the harbour name is `pelabuhan`, defaulting to the title-cased slug; the forecast is `prakiraan`, defaulting to `[]`; a non-dict answer raises |
| CuacaPelabuhan.FetchWeatherForSlug | pelabuhan/cuaca_pelabuhan.py:7-30 | at most `retries+1` requests, `delay` slept between attempts and never after the last, `(None, None)` exactly when every attempt fails |
| RunAllCollectors.RetryFrom | backend/collectors/run_all_collectors.py:40-54 | the collector is called at most `MAX_RETRIES` = 3 times |
| RunAllCollectors.RetryFromMeaning | backend/collectors/run_all_collectors.py:38-54 | success exactly when some attempt returns, stopping at the first one; failure only after all three raise; the pause after attempt `a` is `5·2^(a−1)` |
| RunAllCollectors.Backoff | backend/collectors/run_all_collectors.py:48-49 | definition of the pause after failed attempt `a`: `5 * 2^(a-1)` seconds |
| RunAllCollectors.RetrySleeps | backend/collectors/run_all_collectors.py:48-51 | the pauses are 5 then 10 s, with none after the last attempt |
| RunAllCollectors.RunWithRetry | backend/collectors/run_all_collectors.py:38-54 | the attempt loop computes that run |
| RunAllCollectors.RunAll | backend/collectors/run_all_collectors.py:67-85 | one result per collector, in `COLLECTORS` order; an import failure is recorded with its error and the next collector still runs |
| GenerateGrid.Latitudes | openmeteo/generate_grid_1degree.py:20-22 | 846 entries; entry `k` is −11 + k div 47 with four decimals |
| GenerateGrid.Longitudes | openmeteo/generate_grid_1degree.py:20-23 | 846 entries; entry `k` is 95 + k mod 47 with four decimals |
| GenerateGrid.GridCovers | openmeteo/generate_grid_1degree.py:13-23 | every integral pair in the box, both bounds inclusive, is entry `(lat+11)·47 + (lon−95)` |
| GenerateGrid.GridBounds | openmeteo/generate_grid_1degree.py:13-21 | every entry lies in the box |
| GenerateGrid.Generate1DegreeGrid | openmeteo/generate_grid_1degree.py:9-33 | the nested loops build the grid data, with `total_points` = 846 |
| GenerateGrid.FourDecimalsPiece | openmeteo/generate_grid_1degree.py:22-23 | an entry has no comma and reads back as its integer |
| GenerateGrid.CoordinatesReadBack | openmeteo/generate_grid_1degree.py:25-27 | a joined list of entries splits and converts back to their values |
| GenerateGrid.LatitudesReadBack | openmeteo/generate_grid_1degree.py:26 | the `latitude` string reads back as the grid's latitudes |
| GenerateGrid.LongitudesReadBack | openmeteo/generate_grid_1degree.py:27 | the `longitude` string reads back as the grid's longitudes |
| GenerateGrid.GridPointsAreFallback | openmeteo/generate_grid_1degree.py:20-23 | zipped, the grid's values are the fallback grid of the grid fetcher |
| GenerateGrid.GeneratedGridIsFallback | openmeteo/generate_grid_1degree.py:25-31 | a seed file holding the generated grid gives the grid fetcher exactly its fallback grid, point for point and in order |
| ExtractFailed.IsFailed | backend/collectors/pelabuhan/extract_failed_data.py:15 | definition of the status test `port['status'] == 'failed'`, with the error it raises |
| ExtractFailed.IsFailedSubscript | backend/collectors/pelabuhan/extract_failed_data.py:15 | the status test fails exactly when `port['status']` raises |
| ExtractFailed.FailedRecordFields | backend/collectors/pelabuhan/extract_failed_data.py:16-22 | a record has exactly the five fields, each the entry's own or its default |
| ExtractFailed.FailedIndices | backend/collectors/pelabuhan/extract_failed_data.py:14-15 | the failed positions, in increasing order |
| ExtractFailed.FailedData | backend/collectors/pelabuhan/extract_failed_data.py:14-22 | definition of the filter loop's result: the failed entries projected with defaults, or the first status error |
| ExtractFailed.FailedDataErrors | backend/collectors/pelabuhan/extract_failed_data.py:14-15 | the extraction aborts exactly when some entry's status cannot be read |
| ExtractFailed.FailedDataKept | backend/collectors/pelabuhan/extract_failed_data.py:14-22 | otherwise it keeps exactly the failed entries, in input order, each projected with its defaults |
| ExtractFailed.FailedDataMeaning | backend/collectors/pelabuhan/extract_failed_data.py:14-22 | both together |
| ExtractFailed.FailedIndicesComplete | backend/collectors/pelabuhan/extract_failed_data.py:15 | every failed entry is kept |
| ExtractFailed.FilterFailed | backend/collectors/pelabuhan/extract_failed_data.py:12-22 | the filter loop computes the failed records |
| ExtractFailed.TallyOf | backend/collectors/pelabuhan/extract_failed_data.py:40-43 | definition of the error tally: each message key with its count, in first-seen order, or TypeError for an unhashable message |
| ExtractFailed.TallyCounts | backend/collectors/pelabuhan/extract_failed_data.py:40-43 | the tally lists each message once, with the number of messages equal to it |
| ExtractFailed.TallySum | backend/collectors/pelabuhan/extract_failed_data.py:40-43 | the counts add up to `len(failed_data)` |
| ExtractFailed.TallyMeaning | backend/collectors/pelabuhan/extract_failed_data.py:40-43 | every count is at least 1 and is the message's number of occurrences, and the counts add up to the number of records |
| ExtractFailed.TallyErrors | backend/collectors/pelabuhan/extract_failed_data.py:40-43 | the counting loop computes the tally; an unhashable message raises |
| ExtractFailed.SortByCount | backend/collectors/pelabuhan/extract_failed_data.py:46 | the breakdown is a reordering of the tally |
| ExtractFailed.SortByCountSorted | backend/collectors/pelabuhan/extract_failed_data.py:46 | the breakdown is in non-increasing count order |
| ExtractFailed.ExtractFailedData | backend/collectors/pelabuhan/extract_failed_data.py:3-50 | the whole extraction: the failed records, then the sorted breakdown |
| ExtractFailed.BreakdownMeaning | backend/collectors/pelabuhan/extract_failed_data.py:39-47 | the breakdown has counts ≥ 1 adding up to the number of failed records, in non-increasing order |
| CreatePortData.PortValue | backend/collectors/pelabuhan/create_port_data.py:19-23 | a map value is `latitude` = `coordinates['lat']`, `longitude` = `coordinates['lon']`, and the `slug` |
| CreatePortData.Entry | backend/collectors/pelabuhan/create_port_data.py:14-23 | definition of what one entry contributes: nothing unless its status is `success`, otherwise `port_name` and its value, or the error a subscript raises |
| CreatePortData.EntryOfPort | backend/collectors/pelabuhan/create_port_data.py:14-23 | only entries with status `success` contribute, keyed by `port_name` |
| CreatePortData.Collapse | backend/collectors/pelabuhan/create_port_data.py:12-23 | definition of the keyed collapse: later keys overwrite, the first entry that raises aborts |
| CreatePortData.CollapseErrors | backend/collectors/pelabuhan/create_port_data.py:14-23 | the conversion aborts exactly when some entry raises |
| CreatePortData.CollapseKeys | backend/collectors/pelabuhan/create_port_data.py:16-23 | the keys are exactly the hash keys of the names some entry contributes |
| CreatePortData.CollapseLastWins | backend/collectors/pelabuhan/create_port_data.py:19-23 | a name's value comes from the last entry contributing it |
| CreatePortData.CollapseSize | backend/collectors/pelabuhan/create_port_data.py:14-23 | there are never more keys than contributing entries |
| CreatePortData.SimplifyMeaning | backend/collectors/pelabuhan/create_port_data.py:14-23 | all four, for the source's entries |
| CreatePortData.CreateSimplifiedPortData | backend/collectors/pelabuhan/create_port_data.py:11-23 | the loop computes the simplified map |

## Left out

- The Flask API servers, the static file server and the menu and scheduler scripts are left out: they are HTTP routing, subprocess launches and logging. The combined updaters `openmeteo/update_all_weather.py` and `openmeteo/update_all_weather_auto.py` are not part of this model.
- The geocoding script `openmeteo/city_coordinate.py` is not part of this model. It scrapes a JavaScript file and calls a geocoding service.
- `openmeteo/__init__.py` only re-exports names.
- The `main` of `openmeteo/fetch_weather_data.py` only chains the loader, the batched fetch and the save. It is modelled by its three parts, not as a whole.
- `get_all_harbor_weather` in `pelabuhan/cuaca_pelabuhan.py` is left out: a thread pool that fetches harbours concurrently and keys the results by harbour name as they complete. Only its per-slug fetch and the payload walk are modelled. Its file output is left out too.
- Network clients, caches and retry sessions (`setup_openmeteo_client`, `requests`): each call is a scripted reply.
- MongoDB is the sequence-of-documents store described above.
  - `bulk_write(ordered=False)` is modelled as applying its operations in order.
  - Among same-typed non-string values the sort order used by `find_one` is left open. Only strings are compared (lexicographically) and ranked against other types.
  - `_id` handling and projections are not modelled.
- Floating point is modelled as exact reals.
  - `float()` of a string accepts an optional sign, digits and an optional fraction. Exponents, `inf`, `nan` and underscores are not modelled.
  - `.1f` formatting rounds half to even on the exact value.
- Times: `datetime.utcnow()` is the store's counter and `now` is an integer number of seconds. Time zones and the mix of naive and aware times are abstracted away. `datetime.fromisoformat` is an oracle.
- `str.lower`, `str.title` and `re.sub` classes are modelled on ASCII letters only. Python's whitespace set is listed character by character.
- File reads and writes: the model takes the decoded file values as inputs. The JSON writes of the port, grid and failure files are not modelled.
- Printed and logged text, progress counters and ETA calculations are left out.
- `time.sleep` is returned as a log of durations rather than performed.
- PelabuhanWeather.CollectPorts: the 500 ms pauses taken before a port fetch raises an error that ends `main` are not logged.
- RunAllCollectors.RunAll: the dynamic `__import__` of each collector is an input, an import function giving the collector's outcomes or an error.
- FetchWeatherData.FetchWeatherDataBatched: the rate-limit backoff is modelled for any scripted attempt results. Against the `fetch_weather_data` written in the source, it never fires: see `FetchWeatherData.OnlyPausesAsWritten`.
- ExtractFailed.TallyOf: the tally is keyed by the hash key of each message, so `True` and `1` both appear as `1`, where Python keeps the first message inserted; this only changes printed text. CreatePortData.Collapse is keyed the same way by the hash key of each `port_name`, so the written key of colliding names such as `true` and `1` may differ from the one Python keeps.
- ExtractFailed.SortByCount: the breakdown is proved to be a non-increasing permutation of the tally, not that ties keep their first-seen order as Python's stable `sorted` does; the order only changes printed text.
- ExtractFailed.ExtractFailedData and CreatePortData.CreateSimplifiedPortData take the decoded file as a list. A top-level object, which Python would iterate by its keys, is not modelled.
