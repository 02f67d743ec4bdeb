/** The MongoDB persistence and freshness helpers of `weather_repository.py`.

    Each collection is the sequence of its documents in natural (insertion)
    order. `UpdateOne({field: key}, {"$set": doc}, upsert=True)` changes the
    first document whose `field` equals `key` (a document without the field
    matches a null key), or appends `{field: key}` merged with `doc`.
    `bulk_write(ordered=False)` is applied in list order. When the server is
    unreachable (`online == false`) every collection operation raises;
    `datetime.utcnow()` is the store's counter `clock`, one tick per call. */
module WeatherRepository {
  import opened Common
  import opened Json
  import Text

  /** What a collection operation raises when the server cannot be reached. */
  const ServerUnavailable := "ServerSelectionTimeoutError"

  /** `_ensure_iterable`: None and an empty list both mean no records. */
  function EnsureIterable(data: Option<seq<Doc>>): (r: seq<Doc>)
    ensures data.None? ==> r == []
    ensures data.Some? ==> r == data.value
  {
    if data.None? || data.value == [] then [] else data.value
  }

  /** `document["updated_at"] = datetime.utcnow()` with the clock reading `t`. */
  function Stamp(d: Doc, t: int): (r: Doc)
    ensures r.Keys == d.Keys + {"updated_at"} && r["updated_at"] == JTime(t)
    ensures forall f :: f in d && f != "updated_at" ==> r[f] == d[f]
  {
    d["updated_at" := JTime(t)]
  }

  // ------------------------------------------------------------ upsert semantics

  datatype UpdateOne = UpdateOne(key: Json, fields: Doc)

  /** The position of the first document whose `field` equals `key`. */
  function FindFirst(docs: seq<Doc>, field: string, key: Json): (r: Option<nat>)
    ensures r.Some? ==> r.value < |docs| && Get(docs[r.value], field) == key
    ensures r.Some? ==> forall j :: 0 <= j < r.value ==> Get(docs[j], field) != key
    ensures r.None? ==> forall j :: 0 <= j < |docs| ==> Get(docs[j], field) != key
  {
    if docs == [] then None
    else if Get(docs[0], field) == key then Some(0)
    else match FindFirst(docs[1..], field, key)
      case None => None
      case Some(i) => Some(i + 1)
  }

  /** One `UpdateOne(..., upsert=True)` with `$set` on a collection keyed by `field`. */
  function Upsert(docs: seq<Doc>, field: string, op: UpdateOne): seq<Doc>
  {
    match FindFirst(docs, field, op.key)
    case Some(i) => docs[i := docs[i] + op.fields]
    case None => docs + [map[field := op.key] + op.fields]
  }

  /** `bulk_write(operations)`, one operation after the other. */
  function BulkWrite(docs: seq<Doc>, field: string, ops: seq<UpdateOne>): seq<Doc>
    decreases |ops|
  {
    if ops == [] then docs else BulkWrite(Upsert(docs, field, ops[0]), field, ops[1..])
  }

  /** No two documents of the collection share a value of `field`. */
  predicate UniqueKeys(docs: seq<Doc>, field: string)
  {
    forall i, j :: 0 <= i < j < |docs| ==> Get(docs[i], field) != Get(docs[j], field)
  }

  /** The `$set` document does not move the document off its key. */
  predicate KeepsKey(op: UpdateOne, field: string)
  {
    field in op.fields ==> op.fields[field] == op.key
  }

  /** An upsert changes only the document with its key: every other document
      stays where it was, unchanged; the document with the key holds every
      field of `$set`; the first document with the key is merged with `$set`
      in place, keeping its other fields; and nothing else is added. */
  lemma UpsertEffect(docs: seq<Doc>, field: string, op: UpdateOne)
    requires KeepsKey(op, field)
    ensures var r := Upsert(docs, field, op);
      && |docs| <= |r| <= |docs| + 1
      && (forall j :: 0 <= j < |docs| && Get(docs[j], field) != op.key ==> r[j] == docs[j])
      && (exists i :: 0 <= i < |r| && Get(r[i], field) == op.key
            && (forall f :: f in op.fields ==> f in r[i] && r[i][f] == op.fields[f]))
      && (|r| == |docs| + 1 ==> Get(r[|docs|], field) == op.key && FindFirst(docs, field, op.key).None?)
      && (FindFirst(docs, field, op.key).Some? ==>
            |r| == |docs| && r[FindFirst(docs, field, op.key).value] == docs[FindFirst(docs, field, op.key).value] + op.fields)
  {
    var r := Upsert(docs, field, op);
    match FindFirst(docs, field, op.key)
    case Some(i) =>
      assert Get(r[i], field) == op.key;
    case None =>
      var i := |docs|;
      assert Get(r[i], field) == op.key;
  }

  /** Upserts whose `$set` keeps the key keep the keys unique. */
  lemma UpsertKeepsUniqueKeys(docs: seq<Doc>, field: string, op: UpdateOne)
    requires UniqueKeys(docs, field) && KeepsKey(op, field)
    ensures UniqueKeys(Upsert(docs, field, op), field)
  {
    var r := Upsert(docs, field, op);
    match FindFirst(docs, field, op.key)
    case Some(i) =>
      assert forall j :: 0 <= j < |r| ==> Get(r[j], field) == Get(docs[j], field);
    case None =>
      assert forall j :: 0 <= j < |docs| ==> r[j] == docs[j];
  }

  lemma {:induction false} BulkWriteKeepsUniqueKeys(docs: seq<Doc>, field: string, ops: seq<UpdateOne>)
    requires UniqueKeys(docs, field)
    requires forall k :: 0 <= k < |ops| ==> KeepsKey(ops[k], field)
    ensures UniqueKeys(BulkWrite(docs, field, ops), field)
    decreases |ops|
  {
    if ops != [] {
      UpsertKeepsUniqueKeys(docs, field, ops[0]);
      BulkWriteKeepsUniqueKeys(Upsert(docs, field, ops[0]), field, ops[1..]);
    }
  }

  /** How many documents have `field` equal to `key`. */
  function CountKey(docs: seq<Doc>, field: string, key: Json): nat
  {
    if docs == [] then 0
    else (if Get(docs[0], field) == key then 1 else 0) + CountKey(docs[1..], field, key)
  }

  lemma {:induction false} CountKeyUnique(docs: seq<Doc>, field: string, i: nat)
    requires UniqueKeys(docs, field) && i < |docs|
    ensures CountKey(docs, field, Get(docs[i], field)) == 1
    decreases |docs|
  {
    var key := Get(docs[i], field);
    if i == 0 {
      CountKeyAbsent(docs[1..], field, key);
    } else {
      CountKeyUnique(docs[1..], field, i - 1);
    }
  }

  lemma {:induction false} CountKeyAbsent(docs: seq<Doc>, field: string, key: Json)
    requires forall j :: 0 <= j < |docs| ==> Get(docs[j], field) != key
    ensures CountKey(docs, field, key) == 0
    decreases |docs|
  {
    if docs != [] { CountKeyAbsent(docs[1..], field, key); }
  }

  /** After an upsert under unique keys, exactly one document has the key,
      and it carries every field of the `$set` document. */
  lemma UpsertLeavesOne(docs: seq<Doc>, field: string, op: UpdateOne)
    requires UniqueKeys(docs, field) && KeepsKey(op, field)
    ensures var r := Upsert(docs, field, op);
      && CountKey(r, field, op.key) == 1
      && FindFirst(r, field, op.key).Some?
      && (forall f :: f in op.fields ==> f in r[FindFirst(r, field, op.key).value] && r[FindFirst(r, field, op.key).value][f] == op.fields[f])
  {
    var r := Upsert(docs, field, op);
    UpsertEffect(docs, field, op);
    UpsertKeepsUniqueKeys(docs, field, op);
    var i :| 0 <= i < |r| && Get(r[i], field) == op.key
      && (forall f :: f in op.fields ==> f in r[i] && r[i][f] == op.fields[f]);
    CountKeyUnique(r, field, i);
    var k := FindFirst(r, field, op.key).value;
    assert k == i;
  }

  // ------------------------------------------------------------ save_city_metadata

  /** The records `save_city_metadata` writes: a truthy `name` and both coordinates. */
  predicate KeepCityMetadata(d: Doc)
  {
    Truthy(Get(d, "name")) && Get(d, "latitude") != JNull && Get(d, "longitude") != JNull
  }

  /** The operations `save_city_metadata` sends: one per kept record, keyed by
      its name, stamped in order. */
  function CityMetadataOps(records: seq<Doc>, clock: int): seq<UpdateOne>
  {
    var kept := Filter(records, KeepCityMetadata);
    seq(|kept|, i requires 0 <= i < |kept| => UpdateOne(Get(kept[i], "name"), Stamp(kept[i], clock + i)))
  }

  /** Skipping a record never drops another: the operations of a list are those
      of its parts, and a skipped record contributes none. */
  lemma CityMetadataOpsConcat(xs: seq<Doc>, ys: seq<Doc>, clock: int)
    ensures CityMetadataOps(xs + ys, clock)
         == CityMetadataOps(xs, clock) + CityMetadataOps(ys, clock + |CityMetadataOps(xs, clock)|)
  {
    FilterConcat(xs, ys, KeepCityMetadata);
  }

  lemma CityMetadataSkips(d: Doc, clock: int)
    ensures CityMetadataOps([d], clock) == if KeepCityMetadata(d) then [UpdateOne(d["name"], Stamp(d, clock))] else []
  {
    assert [d][..0] == [];
  }

  // ------------------------------------------------------------ save_grid_metadata

  predicate KeepGridPoint(d: Doc)
  {
    Get(d, "lat") != JNull && Get(d, "lon") != JNull
  }

  /** `f"{float(lat):.1f}, {float(lon):.1f}"`; `float(lat)` is evaluated first. */
  function CoordinateName(lat: Json, lon: Json): Result<string>
  {
    match PyFloat(lat)
    case Err(e) => Err(e)
    case Ok(a) =>
      match PyFloat(lon)
      case Err(e) => Err(e)
      case Ok(b) => Ok(Text.FormatOneDecimal(a) + ", " + Text.FormatOneDecimal(b))
  }

  /** `document.setdefault("name", document.get("name") or f"...")` for one point:
      the default is computed (and may raise) whenever the name is falsy, but it
      is stored only when the key is missing. */
  function NamedGridPoint(d: Doc): Result<Doc>
  {
    if Truthy(Get(d, "name")) then Ok(d)
    else match CoordinateName(Get(d, "lat"), Get(d, "lon"))
      case Err(e) => Err(e)
      case Ok(n) => Ok(SetDefault(d, "name", JStr(n)))
  }

  /** The documents `save_grid_metadata` inserts, or the exception of the
      first point whose default name cannot be formatted. */
  function GridMetadataDocs(points: seq<Doc>, clock: int): Result<seq<Doc>>
  {
    if points == [] then Ok([])
    else
      match GridMetadataDocs(points[..|points| - 1], clock)
      case Err(e) => Err(e)
      case Ok(init) =>
        var d := points[|points| - 1];
        if !KeepGridPoint(d) then Ok(init)
        else match NamedGridPoint(d)
          case Err(e) => Err(e)
          case Ok(named) => Ok(init + [Stamp(named, clock + |init|)])
  }

  /** The grid metadata documents are exactly the kept points, named and
      stamped in order, when no name fails to format. */
  lemma {:induction false} GridMetadataDocsShape(points: seq<Doc>, clock: int)
    requires GridMetadataDocs(points, clock).Ok?
    ensures GridDocsOf(Filter(points, KeepGridPoint), GridMetadataDocs(points, clock).value, clock)
    decreases |points|
  {
    if points != [] {
      var n := |points| - 1;
      var init := points[..n];
      var d := points[n];
      var before := GridMetadataDocs(init, clock);
      assert before.Ok?;
      GridMetadataDocsShape(init, clock);
      assert points == init + [d];
      FilterSnoc(init, d, KeepGridPoint);
      var kept := Filter(init, KeepGridPoint);
      if KeepGridPoint(d) {
        GridDocsSnoc(kept, before.value, d, clock);
        assert GridMetadataDocs(points, clock).value == before.value + [Stamp(NamedGridPoint(d).value, clock + |before.value|)];
        assert Filter(points, KeepGridPoint) == kept + [d];
      } else {
        assert GridMetadataDocs(points, clock).value == before.value;
        assert Filter(points, KeepGridPoint) == kept;
      }
    }
  }

  /** Documents that are the named, stamped kept points, in order. */
  predicate GridDocsOf(kept: seq<Doc>, docs: seq<Doc>, clock: int)
  {
    && |docs| == |kept|
    && forall i :: 0 <= i < |docs| ==>
         NamedGridPoint(kept[i]).Ok? && docs[i] == Stamp(NamedGridPoint(kept[i]).value, clock + i)
  }

  lemma GridDocsSnoc(kept: seq<Doc>, docs: seq<Doc>, x: Doc, clock: int)
    requires GridDocsOf(kept, docs, clock) && NamedGridPoint(x).Ok?
    ensures GridDocsOf(kept + [x], docs + [Stamp(NamedGridPoint(x).value, clock + |docs|)], clock)
  {
  }

  /** One more point of `GridMetadataDocs`. */
  lemma GridMetadataStep(points: seq<Doc>, k: nat, clock: int)
    requires k < |points|
    ensures GridMetadataDocs(points[..k + 1], clock)
         == match GridMetadataDocs(points[..k], clock)
            case Err(e) => Err(e)
            case Ok(init) =>
              if !KeepGridPoint(points[k]) then Ok(init)
              else match NamedGridPoint(points[k])
                case Err(e) => Err(e)
                case Ok(named) => Ok(init + [Stamp(named, clock + |init|)])
  {
    assert points[..k + 1][..k] == points[..k];
  }

  /** No document is written exactly when no point has both coordinates. */
  lemma {:induction false} GridMetadataEmptyIff(points: seq<Doc>, clock: int)
    ensures GridMetadataDocs(points, clock) == Ok([]) <==> forall i :: 0 <= i < |points| ==> !KeepGridPoint(points[i])
    decreases |points|
  {
    if points != [] {
      var init := points[..|points| - 1];
      GridMetadataEmptyIff(init, clock);
      assert forall i :: 0 <= i < |init| ==> init[i] == points[i];
      match GridMetadataDocs(init, clock)
      case Err(_) =>
        assert !(forall i :: 0 <= i < |init| ==> !KeepGridPoint(init[i]));
      case Ok(docs) =>
    }
  }

  /** Every grid metadata document has a name; a truthy name is kept as given. */
  lemma GridPointNamed(d: Doc)
    requires NamedGridPoint(d).Ok?
    ensures "name" in NamedGridPoint(d).value
    ensures Truthy(Get(d, "name")) ==> NamedGridPoint(d).value == d
    ensures "name" !in d ==> NamedGridPoint(d).value["name"] == JStr(CoordinateName(d["lat"], d["lon"]).value)
  {
  }

  /** A point with both coordinates and a name. */
  predicate ReadyGridPoint(d: Doc)
  {
    KeepGridPoint(d) && Truthy(Get(d, "name"))
  }

  /** Points that all have a name and both coordinates are written as given,
      each with its stamp. */
  lemma {:induction false} GridMetadataOfNamedPoints(points: seq<Doc>, clock: int)
    requires forall i :: 0 <= i < |points| ==> ReadyGridPoint(points[i])
    ensures GridMetadataDocs(points, clock) == Ok(StampAll(points, clock))
    decreases |points|
  {
    if points != [] {
      var n := |points| - 1;
      var init := points[..n];
      var d := points[n];
      assert forall i :: 0 <= i < n ==> init[i] == points[i];
      GridMetadataOfNamedPoints(init, clock);
      assert ReadyGridPoint(d);
      assert NamedGridPoint(d) == Ok(d);
      assert points == init + [d];
      StampAllSnoc(init, d, clock);
    }
  }

  lemma StampAllSnoc(points: seq<Doc>, d: Doc, clock: int)
    ensures StampAll(points + [d], clock) == StampAll(points, clock) + [Stamp(d, clock + |points|)]
  {
  }

  // ------------------------------------------------------------ save_port_metadata

  /** The key of a port metadata record: its `slug`, else its `id`. */
  function PortMetadataKey(d: Doc): Json
  {
    Or(Get(d, "slug"), Get(d, "id"))
  }

  predicate KeepPortMetadata(d: Doc)
  {
    Truthy(PortMetadataKey(d)) && Get(d, "lat") != JNull && Get(d, "lon") != JNull
  }

  /** `document.setdefault("port_name", document.get("port_name") or document.get("name"))`. */
  function WithPortName(d: Doc): Doc
  {
    SetDefault(d, "port_name", Or(Get(d, "port_name"), Get(d, "name")))
  }

  function PortMetadataOps(records: seq<Doc>, clock: int): seq<UpdateOne>
  {
    var kept := Filter(records, KeepPortMetadata);
    seq(|kept|, i requires 0 <= i < |kept| =>
      UpdateOne(PortMetadataKey(kept[i]), Stamp(WithPortName(kept[i]), clock + i)))
  }

  lemma PortMetadataOpsConcat(xs: seq<Doc>, ys: seq<Doc>, clock: int)
    ensures PortMetadataOps(xs + ys, clock)
         == PortMetadataOps(xs, clock) + PortMetadataOps(ys, clock + |PortMetadataOps(xs, clock)|)
  {
    FilterConcat(xs, ys, KeepPortMetadata);
  }

  /** Every port metadata operation is keyed by a truthy slug-or-id, and the
      `$set` document keeps that key unless the record carries a falsy `slug`
      beside its `id`. */
  lemma PortMetadataKeys(records: seq<Doc>, clock: int, k: nat)
    requires k < |PortMetadataOps(records, clock)|
    ensures Truthy(PortMetadataOps(records, clock)[k].key)
    ensures var op := PortMetadataOps(records, clock)[k];
      KeepsKey(op, "slug") <==> ("slug" in op.fields ==> Truthy(op.fields["slug"]))
  {
    var kept := Filter(records, KeepPortMetadata);
    assert KeepPortMetadata(kept[k]);
  }

  // ------------------------------------------------------------ weather saves

  function CityWeatherOps(cities: seq<Doc>, clock: int): seq<UpdateOne>
  {
    seq(|cities|, i requires 0 <= i < |cities| => UpdateOne(Get(cities[i], "name"), Stamp(cities[i], clock + i)))
  }

  /** The port weather document: `slug` and `port_name` are present (None when missing). */
  function PortWeatherDoc(port: Doc): (d: Doc)
    ensures "slug" in d && "port_name" in d
    ensures forall f :: f in port ==> f in d && d[f] == port[f]
    ensures d.Keys <= port.Keys + {"slug", "port_name"}
  {
    SetDefault(SetDefault(port, "slug", Get(port, "slug")), "port_name", Get(port, "port_name"))
  }

  function PortWeatherOps(ports: seq<Doc>, clock: int): seq<UpdateOne>
  {
    seq(|ports|, i requires 0 <= i < |ports| =>
      UpdateOne(PortWeatherDoc(ports[i])["slug"], Stamp(PortWeatherDoc(ports[i]), clock + i)))
  }

  /** `point["updated_at"] = datetime.utcnow()` for every point, in order. */
  function StampAll(points: seq<Doc>, clock: int): (r: seq<Doc>)
    ensures |r| == |points|
  {
    seq(|points|, i requires 0 <= i < |points| => Stamp(points[i], clock + i))
  }

  /** Saving the same city twice leaves one document for its name, holding
      the later values and the later `updated_at`. */
  lemma SameCityTwice(docs: seq<Doc>, first: Doc, second: Doc, t1: int, t2: int)
    requires UniqueKeys(docs, "name")
    requires Get(first, "name") == Get(second, "name")
    ensures var after := BulkWrite(BulkWrite(docs, "name", CityWeatherOps([first], t1)), "name", CityWeatherOps([second], t2));
      var key := Get(second, "name");
      && CountKey(after, "name", key) == 1
      && FindFirst(after, "name", key).Some?
      && var d := after[FindFirst(after, "name", key).value];
         "updated_at" in d && d["updated_at"] == JTime(t2)
         && forall f :: f in second && f != "updated_at" ==> f in d && d[f] == second[f]
  {
    var op1 := UpdateOne(Get(first, "name"), Stamp(first, t1));
    var op2 := UpdateOne(Get(second, "name"), Stamp(second, t2));
    assert CityWeatherOps([first], t1) == [op1];
    assert CityWeatherOps([second], t2) == [op2];
    var mid := Upsert(docs, "name", op1);
    UpsertKeepsUniqueKeys(docs, "name", op1);
    UpsertLeavesOne(mid, "name", op2);
    assert BulkWrite(docs, "name", [op1]) == mid;
    assert BulkWrite(mid, "name", [op2]) == Upsert(mid, "name", op2);
  }

  /** Saving a port's weather touches only the document with its slug. */
  lemma PortSaveTouchesOnlyItsSlug(docs: seq<Doc>, port: Doc, t: int)
    ensures var key := PortWeatherDoc(port)["slug"];
      var after := BulkWrite(docs, "slug", PortWeatherOps([port], t));
      && |docs| <= |after| <= |docs| + 1
      && (forall j :: 0 <= j < |docs| && Get(docs[j], "slug") != key ==> after[j] == docs[j])
  {
    var op := UpdateOne(PortWeatherDoc(port)["slug"], Stamp(PortWeatherDoc(port), t));
    assert PortWeatherOps([port], t) == [op];
    assert BulkWrite(docs, "slug", [op]) == Upsert(docs, "slug", op);
    UpsertEffect(docs, "slug", op);
  }

  /** The city, port-weather and city-metadata operations keep their key. */
  lemma WeatherOpsKeepKeys(cities: seq<Doc>, ports: seq<Doc>, records: seq<Doc>, clock: int)
    ensures forall k :: 0 <= k < |cities| ==> KeepsKey(CityWeatherOps(cities, clock)[k], "name")
    ensures forall k :: 0 <= k < |ports| ==> KeepsKey(PortWeatherOps(ports, clock)[k], "slug")
    ensures forall k :: 0 <= k < |CityMetadataOps(records, clock)| ==> KeepsKey(CityMetadataOps(records, clock)[k], "name")
  {
  }

  /** The new grid collection is the stamped input: its size and every field
      but `updated_at` come from the points, whatever was stored before. */
  lemma GridReplaceExact(points: seq<Doc>, clock: int)
    ensures |StampAll(points, clock)| == |points|
    ensures forall i :: 0 <= i < |points| ==>
      "updated_at" in StampAll(points, clock)[i]
      && forall f :: f in points[i] && f != "updated_at" ==> StampAll(points, clock)[i][f] == points[i][f]
  {
  }

  // ------------------------------------------------------------ freshness: path lookup and sort

  /** The value at a dotted path in a document, when `$exists` holds for it. */
  function Lookup(j: Json, path: seq<string>): Option<Json>
    decreases |path|
  {
    if path == [] then Some(j)
    else if j.JObj? && path[0] in j.fields then Lookup(j.fields[path[0]], path[1..])
    else None
  }

  /** The Python walk: `current = current.get(segment)` while `current` is a
      dict, None as soon as it is not. */
  function PyWalk(current: Json, path: seq<string>): Option<Json>
    decreases |path|
  {
    if path == [] then Some(current)
    else if current.JObj? then PyWalk(Get(current.fields, path[0]), path[1..])
    else None
  }

  /** Walking reaches a string exactly where the path exists and holds that string. */
  lemma {:induction false} PyWalkString(j: Json, path: seq<string>, s: string)
    ensures PyWalk(j, path) == Some(JStr(s)) <==> Lookup(j, path) == Some(JStr(s))
    decreases |path|
  {
    if path != [] && j.JObj? {
      if path[0] in j.fields {
        PyWalkString(j.fields[path[0]], path[1..], s);
      } else {
        PyWalkNull(path[1..]);
      }
    }
  }

  lemma {:induction false} PyWalkNull(path: seq<string>)
    ensures PyWalk(JNull, path) == if path == [] then Some(JNull) else None
  {
  }

  /** The rank of a value's type in MongoDB's sort order. */
  function BsonRank(v: Json): nat
  {
    match v
    case JNull => 1
    case JInt(_) => 2
    case JFloat(_) => 2
    case JStr(_) => 3
    case JObj(_) => 4
    case JArr(_) => 5
    case JBool(_) => 8
    case JTime(_) => 9
  }

  /** The part of MongoDB's order the model decides: type rank, and strings by
      code point. Values of one other type are left unordered. */
  predicate SortsBefore(a: Json, b: Json)
  {
    BsonRank(a) < BsonRank(b) || (a.JStr? && b.JStr? && Text.LexLess(a.s, b.s))
  }

  lemma SortsBeforeTransitive(a: Json, b: Json, c: Json)
    requires SortsBefore(a, b) && SortsBefore(b, c)
    ensures SortsBefore(a, c)
  {
    if a.JStr? && b.JStr? && c.JStr? && Text.LexLess(a.s, b.s) && Text.LexLess(b.s, c.s) {
      Text.LexLessTransitive(a.s, b.s, c.s);
    }
  }

  lemma SortsBeforeIrreflexive(a: Json)
    ensures !SortsBefore(a, a)
  {
    if a.JStr? { Text.LexLessIrreflexive(a.s); }
  }

  /** The value under `path`, for a document where it exists. */
  function ValueAt(d: Doc, path: seq<string>): Json
  {
    match Lookup(JObj(d), path) case Some(v) => v case None => JNull
  }

  predicate HasPath(d: Doc, path: seq<string>)
  {
    Lookup(JObj(d), path).Some?
  }

  /** The document `find_one({path: {"$exists": True}}, sort=[(path, -1)])`
      returns: one where the path exists and whose value nothing sorts after. */
  function FindLatest(docs: seq<Doc>, path: seq<string>): (r: Option<nat>)
    ensures r.Some? <==> exists j :: 0 <= j < |docs| && HasPath(docs[j], path)
    ensures r.Some? ==> r.value < |docs| && HasPath(docs[r.value], path)
    ensures r.Some? ==> forall j :: 0 <= j < |docs| && HasPath(docs[j], path) ==>
      !SortsBefore(ValueAt(docs[r.value], path), ValueAt(docs[j], path))
  {
    if docs == [] then None
    else
      var n := |docs| - 1;
      var best := FindLatest(docs[..n], path);
      assert forall j :: 0 <= j < n ==> docs[..n][j] == docs[j];
      if !HasPath(docs[n], path) then best
      else match best
        case None =>
          SortsBeforeIrreflexive(ValueAt(docs[n], path));
          Some(n)
        case Some(i) =>
          if SortsBefore(ValueAt(docs[i], path), ValueAt(docs[n], path)) then
            assert forall j :: 0 <= j < n && HasPath(docs[j], path) ==>
              !SortsBefore(ValueAt(docs[n], path), ValueAt(docs[j], path)) by {
              forall j | 0 <= j < n && HasPath(docs[j], path)
                ensures !SortsBefore(ValueAt(docs[n], path), ValueAt(docs[j], path))
              {
                if SortsBefore(ValueAt(docs[n], path), ValueAt(docs[j], path)) {
                  SortsBeforeTransitive(ValueAt(docs[i], path), ValueAt(docs[n], path), ValueAt(docs[j], path));
                }
              }
            }
            SortsBeforeIrreflexive(ValueAt(docs[n], path));
            Some(n)
          else Some(i)
  }

  // ------------------------------------------------------------ freshness: parsing and age

  /** `_parse_iso_datetime` on a string, with `datetime.fromisoformat` as the
      oracle `fromIso` (None where it raises ValueError); times are seconds. */
  function ParseIsoText(value: string, fromIso: string -> Option<int>): Option<int>
  {
    if value == [] then None
    else match fromIso(value)
      case Some(t) => Some(t)
      case None =>
        if Text.EndsWith(value, "Z") then fromIso(value[..|value| - 1] + "+00:00")
        else fromIso(Text.ReplaceAll(value, "Z", "+00:00"))
  }

  /** `_parse_iso_datetime` on any stored value: falsy values give None and a
      truthy non-string makes `fromisoformat` raise TypeError. */
  function ParseIsoDatetime(value: Json, fromIso: string -> Option<int>): Result<Option<int>>
  {
    if !Truthy(value) then Ok(None)
    else if value.JStr? then Ok(ParseIsoText(value.s, fromIso))
    else Err("TypeError: fromisoformat: argument must be str")
  }

  /** A parsed time is what the parser gave for the text itself or for one of
      the trailing-`Z` rewrites; the empty text parses to nothing. */
  lemma ParseIsoCandidates(value: string, fromIso: string -> Option<int>)
    ensures value == [] ==> ParseIsoText(value, fromIso).None?
    ensures ParseIsoText(value, fromIso).Some? ==>
      var t := ParseIsoText(value, fromIso).value;
      fromIso(value) == Some(t)
      || (fromIso(value).None? && Text.EndsWith(value, "Z") && fromIso(value[..|value| - 1] + "+00:00") == Some(t))
      || (fromIso(value).None? && !Text.EndsWith(value, "Z") && fromIso(Text.ReplaceAll(value, "Z", "+00:00")) == Some(t))
    ensures (fromIso(value).None? && Text.EndsWith(value, "Z") && fromIso(value[..|value| - 1] + "+00:00").None?)
      ==> ParseIsoText(value, fromIso).None?
  {
  }

  /** On strings and on None the parser never raises. */
  lemma ParseIsoNeverRaisesOnText(value: Json, fromIso: string -> Option<int>)
    requires value.JStr? || value.JNull?
    ensures ParseIsoDatetime(value, fromIso).Ok?
    ensures value.JNull? || value == JStr("") ==> ParseIsoDatetime(value, fromIso) == Ok(None)
  {
  }

  /** `_hours_since` with the current time `now`, in seconds. */
  function HoursSince(t: int, now: int): real
  {
    (now - t) as real / 3600.0
  }

  /** `is_*_weather_fresh` once the latest time is known. */
  predicate IsFresh(latest: Option<int>, now: int, maxAgeHours: real)
  {
    latest.Some? && HoursSince(latest.value, now) <= maxAgeHours
  }

  /** Fresh exactly when the age in seconds is at most the bound in hours times 3600. */
  lemma FreshIff(latest: Option<int>, now: int, maxAgeHours: real)
    ensures IsFresh(latest, now, maxAgeHours) <==> latest.Some? && (now - latest.value) as real <= maxAgeHours * 3600.0
  {
  }

  /** What is fresh now was fresh at every earlier moment. */
  lemma FreshEarlier(latest: Option<int>, now: int, earlier: int, maxAgeHours: real)
    requires IsFresh(latest, now, maxAgeHours) && earlier <= now
    ensures IsFresh(latest, earlier, maxAgeHours)
  {
    FreshIff(latest, now, maxAgeHours);
    FreshIff(latest, earlier, maxAgeHours);
  }

  const FetchedAtPath: seq<string> := ["weather_data", "fetched_at"]
  const DefaultCityMaxAgeHours: real := 6.0
  const DefaultGridMaxAgeHours: real := 12.0
  const DefaultPortMaxAgeHours: real := 6.0

  /** `_get_latest_timestamp` on a collection's documents. */
  function LatestTimestamp(docs: seq<Doc>, path: seq<string>, fromIso: string -> Option<int>): Option<int>
  {
    match FindLatest(docs, path)
    case None => None
    case Some(i) =>
      match ValueAt(docs[i], path)
      case JStr(s) => ParseIsoText(s, fromIso)
      case _ => None
  }

  /** Document `k` holds a string under `path`, no stored value there has
      a type that sorts after strings, and no stored string is greater. */
  predicate GreatestString(docs: seq<Doc>, path: seq<string>, k: int)
  {
    && 0 <= k < |docs| && HasPath(docs[k], path) && ValueAt(docs[k], path).JStr?
    && forall j :: 0 <= j < |docs| && HasPath(docs[j], path) ==>
         && BsonRank(ValueAt(docs[j], path)) <= 3
         && (ValueAt(docs[j], path).JStr? ==> !Text.LexLess(ValueAt(docs[k], path).s, ValueAt(docs[j], path).s))
  }

  /** The latest timestamp is the parse of the greatest stored string, and
      there is none when the path is nowhere or a value of a type that sorts
      after strings (an object, an array, a bool, a date) is stored there. */
  lemma LatestTimestampMeaning(docs: seq<Doc>, path: seq<string>, fromIso: string -> Option<int>)
    ensures (forall j :: 0 <= j < |docs| ==> !HasPath(docs[j], path)) ==> LatestTimestamp(docs, path, fromIso).None?
    ensures (exists j :: 0 <= j < |docs| && HasPath(docs[j], path) && BsonRank(ValueAt(docs[j], path)) > 3)
      ==> LatestTimestamp(docs, path, fromIso).None?
    ensures (forall j :: 0 <= j < |docs| && HasPath(docs[j], path) ==> !ValueAt(docs[j], path).JStr?)
      ==> LatestTimestamp(docs, path, fromIso).None?
    ensures forall k :: GreatestString(docs, path, k) ==>
      LatestTimestamp(docs, path, fromIso) == ParseIsoText(ValueAt(docs[k], path).s, fromIso)
  {
    match FindLatest(docs, path)
    case None =>
    case Some(i) =>
      var vi := ValueAt(docs[i], path);
      forall k | GreatestString(docs, path, k)
        ensures LatestTimestamp(docs, path, fromIso) == ParseIsoText(ValueAt(docs[k], path).s, fromIso)
      {
        var vk := ValueAt(docs[k], path);
        assert !SortsBefore(vi, vk);
        assert BsonRank(vi) <= 3;
        assert vi.JStr?;
        Text.LexLessTotal(vi.s, vk.s);
        assert vi.s == vk.s;
      }
  }

  // ------------------------------------------------------------ the store

  class Store {
    const online: bool
    var clock: int
    var cityWeather: seq<Doc>
    var gridWeather: seq<Doc>
    var portWeather: seq<Doc>
    var cityMetadata: seq<Doc>
    var gridMetadata: seq<Doc>
    var portMetadata: seq<Doc>

    constructor (online: bool, clock: int)
      ensures this.online == online && this.clock == clock
      ensures cityWeather == [] && gridWeather == [] && portWeather == []
      ensures cityMetadata == [] && gridMetadata == [] && portMetadata == []
    {
      this.online := online;
      this.clock := clock;
      cityWeather, gridWeather, portWeather := [], [], [];
      cityMetadata, gridMetadata, portMetadata := [], [], [];
    }

    /** `save_city_metadata`. */
    method SaveCityMetadata(data: Option<seq<Doc>>) returns (outcome: Outcome)
      modifies this`cityMetadata, this`clock
      ensures var ops := CityMetadataOps(EnsureIterable(data), old(clock));
        && clock == old(clock) + |ops|
        && (ops == [] || online ==> outcome == Pass)
        && (ops != [] && !online ==> outcome == Fail(ServerUnavailable))
        && cityMetadata == (if ops != [] && online then BulkWrite(old(cityMetadata), "name", ops) else old(cityMetadata))
    {
      var records := EnsureIterable(data);
      if records == [] {
        return Pass;
      }
      ghost var clock0 := clock;
      var operations: seq<UpdateOne> := [];
      var k := 0;
      while k < |records|
        invariant 0 <= k <= |records|
        invariant operations == CityMetadataOps(records[..k], clock0)
        invariant clock == clock0 + |operations|
        invariant cityMetadata == old(cityMetadata)
      {
        var document := records[k];
        CityMetadataOpsConcat(records[..k], [document], clock0);
        CityMetadataSkips(document, clock);
        assert records[..k + 1] == records[..k] + [document];
        if KeepCityMetadata(document) {
          operations := operations + [UpdateOne(document["name"], Stamp(document, clock))];
          clock := clock + 1;
        }
        k := k + 1;
      }
      assert records[..k] == records;
      if operations != [] {
        if !online {
          return Fail(ServerUnavailable);
        }
        cityMetadata := BulkWrite(cityMetadata, "name", operations);
      }
      return Pass;
    }

    /** `save_grid_metadata`: the collection is replaced only when at least one
        point has both coordinates. */
    method SaveGridMetadata(data: Option<seq<Doc>>) returns (outcome: Outcome)
      modifies this`gridMetadata, this`clock
      ensures var docs := GridMetadataDocs(EnsureIterable(data), old(clock));
        && (docs.Err? ==> outcome == Fail(docs.error) && gridMetadata == old(gridMetadata))
        && (docs.Ok? && docs.value == [] ==> outcome == Pass && gridMetadata == old(gridMetadata))
        && (docs.Ok? && docs.value != [] && !online ==> outcome == Fail(ServerUnavailable) && gridMetadata == old(gridMetadata))
        && (docs.Ok? && docs.value != [] && online ==> outcome == Pass && gridMetadata == docs.value)
        && (docs.Ok? ==> clock == old(clock) + |docs.value|)
    {
      var points := EnsureIterable(data);
      if points == [] {
        return Pass;
      }
      ghost var clock0 := clock;
      var documents: seq<Doc> := [];
      var k := 0;
      while k < |points|
        invariant 0 <= k <= |points|
        invariant GridMetadataDocs(points[..k], clock0) == Ok(documents)
        invariant clock == clock0 + |documents|
        invariant gridMetadata == old(gridMetadata)
      {
        var point := points[k];
        GridMetadataStep(points, k, clock0);
        if KeepGridPoint(point) {
          var named := NamedGridPoint(point);
          if named.Err? {
            GridMetadataErrStays(points, k + 1, clock0);
            return Fail(named.error);
          }
          documents := documents + [Stamp(named.value, clock)];
          clock := clock + 1;
        }
        k := k + 1;
      }
      assert points[..k] == points;
      if documents != [] {
        if !online {
          return Fail(ServerUnavailable);
        }
        gridMetadata := documents;
      }
      return Pass;
    }

    /** `save_port_metadata`. */
    method SavePortMetadata(data: Option<seq<Doc>>) returns (outcome: Outcome)
      modifies this`portMetadata, this`clock
      ensures var ops := PortMetadataOps(EnsureIterable(data), old(clock));
        && clock == old(clock) + |ops|
        && (ops == [] || online ==> outcome == Pass)
        && (ops != [] && !online ==> outcome == Fail(ServerUnavailable))
        && portMetadata == (if ops != [] && online then BulkWrite(old(portMetadata), "slug", ops) else old(portMetadata))
    {
      var ports := EnsureIterable(data);
      if ports == [] {
        return Pass;
      }
      ghost var clock0 := clock;
      var operations: seq<UpdateOne> := [];
      var k := 0;
      while k < |ports|
        invariant 0 <= k <= |ports|
        invariant operations == PortMetadataOps(ports[..k], clock0)
        invariant clock == clock0 + |operations|
        invariant portMetadata == old(portMetadata)
      {
        var document := ports[k];
        PortMetadataOpsConcat(ports[..k], [document], clock0);
        assert [document][..0] == [];
        assert ports[..k + 1] == ports[..k] + [document];
        if KeepPortMetadata(document) {
          operations := operations + [UpdateOne(PortMetadataKey(document), Stamp(WithPortName(document), clock))];
          clock := clock + 1;
        }
        k := k + 1;
      }
      assert ports[..k] == ports;
      if operations != [] {
        if !online {
          return Fail(ServerUnavailable);
        }
        portMetadata := BulkWrite(portMetadata, "slug", operations);
      }
      return Pass;
    }

    /** `save_city_weather_data`: one upsert per city, keyed by its name. */
    method SaveCityWeatherData(data: Option<seq<Doc>>) returns (outcome: Outcome)
      modifies this`cityWeather, this`clock
      ensures var cities := EnsureIterable(data);
        && clock == old(clock) + |cities|
        && (cities == [] || online ==> outcome == Pass)
        && (cities != [] && !online ==> outcome == Fail(ServerUnavailable))
        && cityWeather == (if cities != [] && online
                           then BulkWrite(old(cityWeather), "name", CityWeatherOps(cities, old(clock)))
                           else old(cityWeather))
    {
      var cities := EnsureIterable(data);
      if cities == [] {
        return Pass;
      }
      ghost var clock0 := clock;
      var operations: seq<UpdateOne> := [];
      var k := 0;
      while k < |cities|
        invariant 0 <= k <= |cities|
        invariant operations == CityWeatherOps(cities[..k], clock0)
        invariant clock == clock0 + k
        invariant cityWeather == old(cityWeather)
      {
        var city := cities[k];
        operations := operations + [UpdateOne(Get(city, "name"), Stamp(city, clock))];
        clock := clock + 1;
        k := k + 1;
      }
      assert cities[..k] == cities;
      if !online {
        return Fail(ServerUnavailable);
      }
      cityWeather := BulkWrite(cityWeather, "name", operations);
      return Pass;
    }

    /** `save_grid_weather_data`: delete everything, stamp the caller's points
        in place, insert them. `points` is the caller's list after the call. */
    method SaveGridWeatherData(data: Option<seq<Doc>>) returns (outcome: Outcome, points: seq<Doc>)
      modifies this`gridWeather, this`clock
      ensures var input := EnsureIterable(data);
        && (input == [] ==> outcome == Pass && points == input && gridWeather == old(gridWeather) && clock == old(clock))
        && (input != [] && !online ==>
              outcome == Fail(ServerUnavailable) && points == input && gridWeather == old(gridWeather) && clock == old(clock))
        && (input != [] && online ==>
              outcome == Pass && points == StampAll(input, old(clock)) && gridWeather == points && clock == old(clock) + |input|)
    {
      var gridPoints := EnsureIterable(data);
      points := gridPoints;
      if gridPoints == [] {
        return Pass, points;
      }
      if !online {
        return Fail(ServerUnavailable), points;
      }
      gridWeather := [];
      ghost var clock0 := clock;
      var k := 0;
      while k < |points|
        invariant 0 <= k <= |points| == |gridPoints|
        invariant points[..k] == StampAll(gridPoints[..k], clock0)
        invariant points[k..] == gridPoints[k..]
        invariant clock == clock0 + k
      {
        assert points[k] == gridPoints[k];
        points := points[k := Stamp(points[k], clock)];
        clock := clock + 1;
        k := k + 1;
        assert points[..k] == StampAll(gridPoints[..k], clock0);
      }
      assert points == points[..k] && gridPoints[..k] == gridPoints;
      gridWeather := points;
      return Pass, points;
    }

    /** `save_port_weather_data`: one upsert per port, keyed by its slug. */
    method SavePortWeatherData(data: Option<seq<Doc>>) returns (outcome: Outcome)
      modifies this`portWeather, this`clock
      ensures var ports := EnsureIterable(data);
        && clock == old(clock) + |ports|
        && (ports == [] || online ==> outcome == Pass)
        && (ports != [] && !online ==> outcome == Fail(ServerUnavailable))
        && portWeather == (if ports != [] && online
                           then BulkWrite(old(portWeather), "slug", PortWeatherOps(ports, old(clock)))
                           else old(portWeather))
    {
      var ports := EnsureIterable(data);
      if ports == [] {
        return Pass;
      }
      ghost var clock0 := clock;
      var operations: seq<UpdateOne> := [];
      var k := 0;
      while k < |ports|
        invariant 0 <= k <= |ports|
        invariant operations == PortWeatherOps(ports[..k], clock0)
        invariant clock == clock0 + k
        invariant portWeather == old(portWeather)
      {
        var document := PortWeatherDoc(ports[k]);
        operations := operations + [UpdateOne(document["slug"], Stamp(document, clock))];
        clock := clock + 1;
        k := k + 1;
      }
      assert ports[..k] == ports;
      if !online {
        return Fail(ServerUnavailable);
      }
      portWeather := BulkWrite(portWeather, "slug", operations);
      return Pass;
    }

    /** `get_grid_metadata` (and likewise for the other collections). */
    method GetGridMetadata() returns (r: Result<seq<Doc>>)
      ensures r == if online then Ok(gridMetadata) else Err(ServerUnavailable)
    {
      if !online { return Err(ServerUnavailable); }
      return Ok(gridMetadata);
    }

    method GetCityMetadata() returns (r: Result<seq<Doc>>)
      ensures r == if online then Ok(cityMetadata) else Err(ServerUnavailable)
    {
      if !online { return Err(ServerUnavailable); }
      return Ok(cityMetadata);
    }

    method GetPortMetadata() returns (r: Result<seq<Doc>>)
      ensures r == if online then Ok(portMetadata) else Err(ServerUnavailable)
    {
      if !online { return Err(ServerUnavailable); }
      return Ok(portMetadata);
    }

    /** `get_latest_city_fetch_time`. */
    method GetLatestCityFetchTime(fromIso: string -> Option<int>) returns (r: Result<Option<int>>)
      ensures r == if online then Ok(LatestTimestamp(cityWeather, FetchedAtPath, fromIso)) else Err(ServerUnavailable)
    {
      if !online { return Err(ServerUnavailable); }
      var latest := LatestIn(cityWeather, FetchedAtPath, fromIso);
      return Ok(latest);
    }

    /** `get_latest_grid_fetch_time`. */
    method GetLatestGridFetchTime(fromIso: string -> Option<int>) returns (r: Result<Option<int>>)
      ensures r == if online then Ok(LatestTimestamp(gridWeather, FetchedAtPath, fromIso)) else Err(ServerUnavailable)
    {
      if !online { return Err(ServerUnavailable); }
      var latest := LatestIn(gridWeather, FetchedAtPath, fromIso);
      return Ok(latest);
    }

    /** `get_latest_port_time`: the top-level `fetched_at` of the latest
        document goes to the parser whatever its type. */
    method GetLatestPortTime(fromIso: string -> Option<int>) returns (r: Result<Option<int>>)
      ensures !online ==> r == Err(ServerUnavailable)
      ensures online ==> r == match FindLatest(portWeather, ["fetched_at"])
        case None => Ok(None)
        case Some(i) => ParseIsoDatetime(Get(portWeather[i], "fetched_at"), fromIso)
    {
      if !online { return Err(ServerUnavailable); }
      var found := FindLatest(portWeather, ["fetched_at"]);
      if found.None? { return Ok(None); }
      return ParseIsoDatetime(Get(portWeather[found.value], "fetched_at"), fromIso);
    }

    /** `is_city_weather_fresh(max_age_hours)` at time `now`. */
    method IsCityWeatherFresh(now: int, maxAgeHours: real, fromIso: string -> Option<int>) returns (r: Result<bool>)
      ensures r == if online then Ok(IsFresh(LatestTimestamp(cityWeather, FetchedAtPath, fromIso), now, maxAgeHours))
                   else Err(ServerUnavailable)
    {
      var latest := GetLatestCityFetchTime(fromIso);
      if latest.Err? { return Err(latest.error); }
      return Ok(IsFresh(latest.value, now, maxAgeHours));
    }

    /** `is_grid_weather_fresh(max_age_hours)` at time `now`. */
    method IsGridWeatherFresh(now: int, maxAgeHours: real, fromIso: string -> Option<int>) returns (r: Result<bool>)
      ensures r == if online then Ok(IsFresh(LatestTimestamp(gridWeather, FetchedAtPath, fromIso), now, maxAgeHours))
                   else Err(ServerUnavailable)
    {
      var latest := GetLatestGridFetchTime(fromIso);
      if latest.Err? { return Err(latest.error); }
      return Ok(IsFresh(latest.value, now, maxAgeHours));
    }

    /** `is_port_weather_fresh(max_age_hours)` at time `now`; the parser's
        TypeError propagates. */
    method IsPortWeatherFresh(now: int, maxAgeHours: real, fromIso: string -> Option<int>) returns (r: Result<bool>)
      ensures !online ==> r == Err(ServerUnavailable)
      ensures online ==> r == match FindLatest(portWeather, ["fetched_at"])
        case None => Ok(false)
        case Some(i) =>
          match ParseIsoDatetime(Get(portWeather[i], "fetched_at"), fromIso)
          case Err(e) => Err(e)
          case Ok(t) => Ok(IsFresh(t, now, maxAgeHours))
    {
      var latest := GetLatestPortTime(fromIso);
      if latest.Err? { return Err(latest.error); }
      return Ok(IsFresh(latest.value, now, maxAgeHours));
    }
  }

  /** The first `k` points already decide a failure of the grid metadata docs. */
  lemma {:induction false} GridMetadataErrStays(points: seq<Doc>, k: nat, clock: int)
    requires k <= |points|
    requires GridMetadataDocs(points[..k], clock).Err?
    ensures GridMetadataDocs(points, clock) == GridMetadataDocs(points[..k], clock)
    decreases |points| - k
  {
    if k < |points| {
      assert points[..k + 1][..k] == points[..k];
      GridMetadataErrStays(points, k + 1, clock);
    } else {
      assert points[..k] == points;
    }
  }

  /** The walk of `_get_latest_timestamp` over the chosen document. */
  method LatestIn(docs: seq<Doc>, path: seq<string>, fromIso: string -> Option<int>) returns (r: Option<int>)
    ensures r == LatestTimestamp(docs, path, fromIso)
  {
    var found := FindLatest(docs, path);
    if found.None? {
      return None;
    }
    var document := docs[found.value];
    var current := JObj(document);
    var k := 0;
    while k < |path|
      invariant 0 <= k <= |path|
      invariant PyWalk(JObj(document), path) == PyWalk(current, path[k..])
    {
      if !current.JObj? {
        assert PyWalk(current, path[k..]) == None;
        NoStringLeaf(document, path);
        return None;
      }
      current := Get(current.fields, path[k]);
      assert path[k..][1..] == path[k + 1..];
      k := k + 1;
    }
    assert PyWalk(current, path[k..]) == Some(current);
    if current.JStr? {
      PyWalkString(JObj(document), path, current.s);
      return ParseIsoText(current.s, fromIso);
    }
    NoStringLeaf(document, path);
    return None;
  }

  /** When the Python walk does not end on a string, the spec finds no string either. */
  lemma NoStringLeaf(d: Doc, path: seq<string>)
    requires !(PyWalk(JObj(d), path).Some? && PyWalk(JObj(d), path).value.JStr?)
    ensures !ValueAt(d, path).JStr?
  {
    if ValueAt(d, path).JStr? {
      PyWalkString(JObj(d), path, ValueAt(d, path).s);
    }
  }
}
