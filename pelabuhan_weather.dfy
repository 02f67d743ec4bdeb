/** The port collector, `backend/collectors/pelabuhan_weather.py`: load the
    ports (from the port metadata collection, else from `pelabuhan.json`,
    which is then written back as metadata), ask the BMKG maritime service for
    each one, classify each answer, and upsert every result by slug. */
module PelabuhanWeather {
  import opened Common
  import opened Json
  import opened Text
  import opened WeatherRepository

  // ------------------------------------------------------------ create_slug

  /** `re.sub(r'[^a-zA-Z0-9\s]', ' ', ...)` on one character. */
  function Blank(c: char): char
  {
    if IsAsciiAlnum(c) || IsSpace(c) then c else ' '
  }

  function BlankSymbols(s: string): (r: string)
    ensures |r| == |s| && forall i :: 0 <= i < |s| ==> r[i] == Blank(s[i])
  {
    seq(|s|, i requires 0 <= i < |s| => Blank(s[i]))
  }

  /** `create_slug`: symbols become spaces, the ends are stripped, each run of
      whitespace becomes one `-`, and the result is lower-cased. */
  function CreateSlug(name: string): string
  {
    Lower(ReplaceRuns(Strip(BlankSymbols(name), IsSpace), IsSpace, '-'))
  }

  /** A slug is lower-case letters, digits and single inner hyphens. */
  lemma CreateSlugWellFormed(name: string)
    ensures WellFormedSlug(CreateSlug(name))
  {
    var b := Strip(BlankSymbols(name), IsSpace);
    StrippedBlanks(name);
    var c := ReplaceRuns(b, IsSpace, '-');
    DashedStripped(b);
    LowerSlug(c);
  }

  /** Replacing the whitespace runs of stripped text of letters, digits and
      whitespace gives letters, digits and single inner hyphens. */
  lemma DashedStripped(b: string)
    requires forall i :: 0 <= i < |b| && !IsSpace(b[i]) ==> IsAsciiAlnum(b[i])
    requires b != [] ==> !IsSpace(b[0]) && !IsSpace(b[|b| - 1])
    ensures var c := ReplaceRuns(b, IsSpace, '-');
      && (forall i :: 0 <= i < |c| ==> AlnumOrDash(c[i]))
      && NoDouble(c, '-')
      && (c != [] ==> c[0] != '-' && c[|c| - 1] != '-')
  {
    assert forall i :: 0 <= i < |b| && !IsSpace(b[i]) ==> AlnumOrDash(b[i]) && b[i] != '-';
    ReplaceRunsAlphabet(b, IsSpace, '-', AlnumOrDash);
    ReplaceRunsNoDouble(b, IsSpace, '-');
    DashedEnds(b);
  }

  lemma DashedEnds(b: string)
    requires b != [] ==> !IsSpace(b[0]) && !IsSpace(b[|b| - 1]) && IsAsciiAlnum(b[0]) && IsAsciiAlnum(b[|b| - 1])
    ensures var c := ReplaceRuns(b, IsSpace, '-');
      c != [] ==> c[0] != '-' && c[|c| - 1] != '-'
  {
    if b != [] {
      ReplaceRunsHead(b, IsSpace, '-');
      ReplaceRunsLast(b, IsSpace, '-');
    }
  }

  /** After blanking and stripping, what is not whitespace is an ASCII letter or digit. */
  lemma StrippedBlanks(name: string)
    ensures var b := Strip(BlankSymbols(name), IsSpace);
      forall i :: 0 <= i < |b| && !IsSpace(b[i]) ==> IsAsciiAlnum(b[i])
  {
    StripKeeps(BlankSymbols(name), IsSpace, AlnumOrSpace);
  }

  predicate AlnumOrSpace(c: char) { IsAsciiAlnum(c) || IsSpace(c) }

  predicate AlnumOrDash(c: char) { IsAsciiAlnum(c) || c == '-' }

  /** Lower-casing text made of ASCII letters, digits and single inner
      hyphens gives a well-formed slug. */
  lemma LowerSlug(c: string)
    requires forall i :: 0 <= i < |c| ==> AlnumOrDash(c[i])
    requires NoDouble(c, '-')
    requires c != [] ==> c[0] != '-' && c[|c| - 1] != '-'
    ensures WellFormedSlug(Lower(c))
  {
    var l := Lower(c);
    assert forall i :: 0 <= i < |c| ==> (l[i] == '-' <==> c[i] == '-');
  }

  /** A well-formed slug is its own slug, so `create_slug` is idempotent. */
  lemma CreateSlugFixesSlugs(s: string)
    requires WellFormedSlug(s)
    ensures CreateSlug(s) == s
  {
    var a := BlankSymbols(s);
    SlugBlanked(s);
    if a != [] {
      assert !IsSpace(a[0]) && !IsSpace(a[|a| - 1]);
    }
    StripUnchanged(a, IsSpace);
    SingleSpacesBecomeDashes(s);
    assert forall i :: 0 <= i < |s| ==> LowerChar(s[i]) == s[i];
  }

  /** The hyphens of a slug written as spaces: what `create_slug` sees. */
  predicate DashesAsSpaces(s: string, a: string)
  {
    && |a| == |s|
    && (forall i :: 0 <= i < |s| ==> IsSlugChar(s[i]) || s[i] == '-')
    && (forall i :: 0 <= i < |s| ==> a[i] == (if s[i] == '-' then ' ' else s[i]))
    && NoDouble(s, '-')
    && (s != [] ==> s[0] != '-')
  }

  /** A slug with its hyphens written as spaces. */
  function DashesToSpaces(s: string): (r: string)
    ensures |r| == |s|
  {
    if s == [] then [] else [if s[0] == '-' then ' ' else s[0]] + DashesToSpaces(s[1..])
  }

  /** Blanking the symbols of a slug writes its hyphens as spaces. */
  lemma {:induction false} SlugBlanked(s: string)
    requires forall i :: 0 <= i < |s| ==> IsSlugChar(s[i]) || s[i] == '-'
    ensures BlankSymbols(s) == DashesToSpaces(s)
    decreases |s|
  {
    if s != [] {
      SlugBlanked(s[1..]);
      assert BlankSymbols(s) == [Blank(s[0])] + BlankSymbols(s[1..]);
    }
  }

  /** Replacing single spaces that stand for hyphens gives the hyphens back. */
  lemma {:induction false} SingleSpacesBecomeDashes(s: string)
    requires forall i :: 0 <= i < |s| ==> IsSlugChar(s[i]) || s[i] == '-'
    requires NoDouble(s, '-')
    requires s != [] ==> s[0] != '-'
    ensures ReplaceRuns(DashesToSpaces(s), IsSpace, '-') == s
    decreases |s|
  {
    if s != [] {
      var a := DashesToSpaces(s);
      ReplaceRunsKept(a, IsSpace, '-');
      NoDoubleSlice(s, 1, |s|, '-');
      if |s| > 1 && s[1] == '-' {
        assert |s| > 2 ==> s[2] != '-';
        var u := s[1..];
        NoDoubleSlice(u, 1, |u|, '-');
        assert u[1..] == s[2..];
        ReplaceRunsSep(' ', DashesToSpaces(u[1..]), IsSpace, '-');
        SingleSpacesBecomeDashes(u[1..]);
        assert u == [u[0]] + u[1..];
      } else {
        SingleSpacesBecomeDashes(s[1..]);
      }
      assert s == [s[0]] + s[1..];
    }
  }

  /** The loader's `slug or create_slug(name or '')`: a falsy slug is
      recomputed from the name, a falsy name counting as "", which raises
      TypeError when the name is truthy and no string. */
  function SlugOr(slug: Json, name: Json): Result<Json>
  {
    if Truthy(slug) then Ok(slug)
    else
      var n := Or(name, JStr(""));
      if n.JStr? then Ok(JStr(CreateSlug(n.s))) else Err("TypeError: expected string or bytes-like object")
  }

  // ------------------------------------------------------------ _load_ports_from_mongo

  /** The port one metadata document gives, or None when a coordinate is
      missing. A coordinate is its short field unless that is falsy, so a
      latitude of 0.0 falls through to `latitude`. */
  function MongoPort(doc: Doc, count: nat): Result<Option<Doc>>
  {
    var lat := Or(Get(doc, "lat"), Get(doc, "latitude"));
    var lon := Or(Get(doc, "lon"), Get(doc, "longitude"));
    if lat == JNull || lon == JNull then Ok(None)
    else
      var name := Or(Get(doc, "port_name"), Get(doc, "name"));
      match SlugOr(Get(doc, "slug"), name)
      case Err(e) => Err(e)
      case Ok(slug) =>
        match PyFloat(lat)
        case Err(e) => Err(e)
        case Ok(la) =>
          match PyFloat(lon)
          case Err(e) => Err(e)
          case Ok(lo) =>
            Ok(Some(PortRecord(Or(Get(doc, "id"), Or(Get(doc, "slug"), JStr("PORT_" + ZeroPad3(count + 1)))), name, la, lo, slug)))
  }

  /** The port dict both loaders build. */
  function PortRecord(id: Json, name: Json, lat: real, lon: real, slug: Json): (d: Doc)
    ensures d.Keys == {"id", "name", "lat", "lon", "slug"}
    ensures d["id"] == id && d["name"] == name && d["slug"] == slug
    ensures d["lat"] == JFloat(lat) && d["lon"] == JFloat(lon)
  {
    map["id" := id, "name" := name, "lat" := JFloat(lat), "lon" := JFloat(lon), "slug" := slug]
  }

  /** The ports of the metadata collection, in order; an error in one
      document (a name that is no string, a coordinate `float()` refuses)
      escapes the loader. */
  function MongoPorts(metadata: seq<Doc>): Result<seq<Doc>>
  {
    if metadata == [] then Ok([])
    else match MongoPorts(metadata[..|metadata| - 1])
      case Err(e) => Err(e)
      case Ok(ports) =>
        match MongoPort(metadata[|metadata| - 1], |ports|)
        case Err(e) => Err(e)
        case Ok(None) => Ok(ports)
        case Ok(Some(p)) => Ok(ports + [p])
  }

  /** What every loaded port looks like: a truthy id, float coordinates, and
      a slug that is a string whenever the stored one was falsy. */
  predicate PortShape(p: Doc)
  {
    && p.Keys == {"id", "name", "lat", "lon", "slug"}
    && p["lat"].JFloat? && p["lon"].JFloat?
    && Truthy(p["id"])
    && (p["slug"].JStr? || Truthy(p["slug"]))
  }

  lemma PortRecordShape(id: Json, name: Json, lat: real, lon: real, slug: Json)
    requires Truthy(id) && (slug.JStr? || Truthy(slug))
    ensures PortShape(PortRecord(id, name, lat, lon, slug))
    ensures PortRecord(id, name, lat, lon, slug)["lat"] == JFloat(lat)
  {
  }

  /** A stored slug is kept when truthy; otherwise the slug is that of the
      name, "" for a falsy name. */
  lemma SlugOrShape(slug: Json, name: Json)
    ensures Truthy(slug) ==> SlugOr(slug, name) == Ok(slug)
    ensures !Truthy(slug) && name.JStr? ==> SlugOr(slug, name) == Ok(JStr(CreateSlug(name.s)))
    ensures !Truthy(slug) && !Truthy(name) ==> SlugOr(slug, name) == Ok(JStr(""))
  {
    if Truthy(slug) {
    } else if name.JStr? {
      assert Or(name, JStr("")) == name;
    } else if !Truthy(name) {
      assert Or(name, JStr("")) == JStr("");
      CreateSlugEmpty();
    }
  }

  /** A slug the loader computes is a well-formed slug. */
  lemma SlugOrWellFormed(slug: Json, name: Json)
    ensures !Truthy(slug) && SlugOr(slug, name).Ok? ==>
      SlugOr(slug, name).value.JStr? && WellFormedSlug(SlugOr(slug, name).value.s)
  {
    if !Truthy(slug) && SlugOr(slug, name).Ok? {
      var n := Or(name, JStr(""));
      assert SlugOr(slug, name) == Ok(JStr(CreateSlug(n.s)));
      CreateSlugWellFormed(n.s);
    }
  }

  /** The slug of the empty name is empty. */
  lemma CreateSlugEmpty()
    ensures CreateSlug("") == ""
  {
    assert BlankSymbols("") == "";
  }

  /** The loader's fallback raises exactly when there is no slug and the name
      is truthy but no string. */
  lemma SlugOrRaises(slug: Json, name: Json)
    ensures SlugOr(slug, name).Err? <==> !Truthy(slug) && Truthy(name) && !name.JStr?
  {
  }

  lemma MongoPortShape(doc: Doc, count: nat)
    requires MongoPort(doc, count).Ok? && MongoPort(doc, count).value.Some?
    ensures PortShape(MongoPort(doc, count).value.value)
    ensures MongoPort(doc, count).value.value["lat"] == JFloat(ToFloat(Or(Get(doc, "lat"), Get(doc, "latitude"))).value)
  {
    var lat := Or(Get(doc, "lat"), Get(doc, "latitude"));
    var lon := Or(Get(doc, "lon"), Get(doc, "longitude"));
    var name := Or(Get(doc, "port_name"), Get(doc, "name"));
    var slug := SlugOr(Get(doc, "slug"), name).value;
    var la := PyFloat(lat).value;
    var lo := PyFloat(lon).value;
    var fallback := JStr("PORT_" + ZeroPad3(count + 1));
    var id := Or(Get(doc, "id"), Or(Get(doc, "slug"), fallback));
    assert MongoPort(doc, count).value.value == PortRecord(id, name, la, lo, slug);
    assert Truthy(fallback);
    PyFloatValue(lat);
    SlugOrWellFormed(Get(doc, "slug"), name);
    assert slug.JStr? || Truthy(slug);
    PortRecordShape(id, name, la, lo, slug);
  }

  /** A document is skipped exactly when a coordinate is missing after the
      fall-through; in particular a latitude of 0.0 with no `latitude` is skipped. */
  lemma MongoPortSkips(doc: Doc, count: nat)
    ensures MongoPort(doc, count) == Ok(None) <==>
      Or(Get(doc, "lat"), Get(doc, "latitude")) == JNull || Or(Get(doc, "lon"), Get(doc, "longitude")) == JNull
    ensures Get(doc, "lat") == JFloat(0.0) && Get(doc, "latitude") == JNull ==> MongoPort(doc, count) == Ok(None)
  {
  }

  /** Loaded ports keep the order of the documents, skipping those without
      coordinates, and never outnumber them. */
  lemma {:induction false} MongoPortsMeaning(metadata: seq<Doc>)
    requires MongoPorts(metadata).Ok?
    ensures |MongoPorts(metadata).value| <= |metadata|
    ensures forall p :: p in MongoPorts(metadata).value ==> PortShape(p)
    decreases |metadata|
  {
    if metadata != [] {
      var init := metadata[..|metadata| - 1];
      MongoPortsMeaning(init);
      var ports := MongoPorts(init).value;
      var r := MongoPort(metadata[|metadata| - 1], |ports|);
      if r.value.Some? {
        MongoPortShape(metadata[|metadata| - 1], |ports|);
      }
    }
  }

  /** `_load_ports_from_mongo`: a metadata read that raises counts as none. */
  method LoadPortsFromMongo(store: Store) returns (r: Result<seq<Doc>>)
    ensures r == if store.online then MongoPorts(store.portMetadata) else Ok([])
  {
    var read := store.GetPortMetadata();
    var metadata := if read.Ok? then read.value else [];
    if metadata == [] {
      return Ok([]);
    }
    var ports: seq<Doc> := [];
    var k := 0;
    while k < |metadata|
      invariant 0 <= k <= |metadata|
      invariant MongoPorts(metadata[..k]) == Ok(ports)
    {
      assert metadata[..k + 1][..k] == metadata[..k];
      var p := MongoPort(metadata[k], |ports|);
      if p.Err? {
        assert MongoPorts(metadata[..k + 1]).Err?;
        ErrStays(metadata, k + 1);
        return Err(p.error);
      }
      if p.value.Some? {
        ports := ports + [p.value.value];
      }
      k := k + 1;
    }
    assert metadata[..k] == metadata;
    return Ok(ports);
  }

  /** Once a prefix of the documents fails, every longer one fails alike. */
  lemma {:induction false} ErrStays(metadata: seq<Doc>, k: nat)
    requires 0 < k <= |metadata| && MongoPorts(metadata[..k]).Err?
    ensures MongoPorts(metadata) == MongoPorts(metadata[..k])
    decreases |metadata| - k
  {
    if k < |metadata| {
      assert metadata[..k + 1][..k] == metadata[..k];
      ErrStays(metadata, k + 1);
    } else {
      assert metadata[..k] == metadata;
    }
  }

  // ------------------------------------------------------------ _load_ports_from_json

  /** A flat-list element that starts a port: a string containing
      "Pelabuhan" followed by two numbers. */
  predicate PortAt(xs: seq<Json>, i: int)
  {
    && 0 <= i && i + 2 < |xs|
    && xs[i].JStr? && Contains(xs[i].s, "Pelabuhan")
    && IsNumber(xs[i + 1]) && IsNumber(xs[i + 2])
  }

  /** The positions before `n` where a port starts, in order. */
  function PortIndices(xs: seq<Json>, n: nat): (r: seq<nat>)
    requires n <= |xs|
    ensures forall k :: 0 <= k < |r| ==> r[k] < n && PortAt(xs, r[k])
    ensures forall k, l :: 0 <= k < l < |r| ==> r[k] < r[l]
  {
    if n == 0 then [] else PortIndices(xs, n - 1) + (if PortAt(xs, n - 1) then [n - 1] else [])
  }

  /** Every port start before `n` is found. */
  lemma {:induction false} PortIndicesComplete(xs: seq<Json>, n: nat, i: nat)
    requires n <= |xs| && i < n && PortAt(xs, i)
    ensures i in PortIndices(xs, n)
    decreases n
  {
    if i < n - 1 {
      PortIndicesComplete(xs, n - 1, i);
    }
  }

  /** The port found at position `i`, the `k`-th one, with slug `slug`. */
  function JsonPort(xs: seq<Json>, i: int, k: nat, slug: string): (d: Doc)
    requires PortAt(xs, i)
    ensures d.Keys == {"id", "name", "lat", "lon", "slug"}
    ensures d["id"] == JStr("PORT_" + ZeroPad3(k + 1)) && d["name"] == xs[i] && d["slug"] == JStr(slug)
    ensures d["lat"] == JFloat(ToFloat(xs[i + 1]).value) && d["lon"] == JFloat(ToFloat(xs[i + 2]).value)
  {
    map[
      "id" := JStr("PORT_" + ZeroPad3(k + 1)),
      "name" := xs[i],
      "lat" := JFloat(ToFloat(xs[i + 1]).value),
      "lon" := JFloat(ToFloat(xs[i + 2]).value),
      "slug" := JStr(slug)]
  }

  /** The metadata document written for the port at position `i`. */
  function JsonMetadataDoc(xs: seq<Json>, i: int, slug: string): (d: Doc)
    requires PortAt(xs, i)
    ensures d.Keys == {"slug", "port_name", "lat", "lon"}
    ensures d["slug"] == JStr(slug) && d["port_name"] == xs[i]
    ensures d["lat"] == JFloat(ToFloat(xs[i + 1]).value) && d["lon"] == JFloat(ToFloat(xs[i + 2]).value)
  {
    map[
      "slug" := JStr(slug),
      "port_name" := xs[i],
      "lat" := JFloat(ToFloat(xs[i + 1]).value),
      "lon" := JFloat(ToFloat(xs[i + 2]).value)]
  }

  /** The ports and metadata documents the scan of a flat list builds. */
  datatype Scanned = Scanned(ports: seq<Doc>, docs: seq<Doc>)

  /** What the scan has built after the first `n` elements, each name turned
      into a slug by `slugOf` (`create_slug` in the collector). */
  function ScanPrefix(xs: seq<Json>, n: nat, slugOf: string -> string): (r: Scanned)
    requires n <= |xs|
    ensures |r.docs| == |r.ports|
    ensures forall k :: 0 <= k < |r.ports| ==>
      r.ports[k].Keys == {"id", "name", "lat", "lon", "slug"} && r.docs[k].Keys == {"slug", "port_name", "lat", "lon"}
  {
    if n == 0 then Scanned([], [])
    else
      var s := ScanPrefix(xs, n - 1, slugOf);
      if PortAt(xs, n - 1) then
        var slug := slugOf(xs[n - 1].s);
        Scanned(s.ports + [JsonPort(xs, n - 1, |s.ports|, slug)], s.docs + [JsonMetadataDoc(xs, n - 1, slug)])
      else s
  }

  /** The scan of a whole flat list. */
  function ScanList(xs: seq<Json>): Scanned
  {
    ScanPrefix(xs, |xs|, CreateSlug)
  }

  /** The `k`-th port and document come from the `k`-th port start. */
  lemma {:induction false} ScanPrefixIndices(xs: seq<Json>, n: nat, slugOf: string -> string)
    requires n <= |xs|
    ensures var s := ScanPrefix(xs, n, slugOf);
      var idx := PortIndices(xs, n);
      && |s.ports| == |idx| && |s.docs| == |idx|
      && (forall k :: 0 <= k < |idx| ==> s.ports[k] == JsonPort(xs, idx[k], k, slugOf(xs[idx[k]].s)))
      && (forall k :: 0 <= k < |idx| ==> s.docs[k] == JsonMetadataDoc(xs, idx[k], slugOf(xs[idx[k]].s)))
  {
    if n > 0 {
      ScanPrefixIndices(xs, n - 1, slugOf);
      var prev := ScanPrefix(xs, n - 1, slugOf);
      var idx := PortIndices(xs, n - 1);
      if PortAt(xs, n - 1) {
        var slug := slugOf(xs[n - 1].s);
        ScanStep(prev, idx, JsonPort(xs, n - 1, |prev.ports|, slug), JsonMetadataDoc(xs, n - 1, slug), xs, n - 1, slugOf);
      }
    }
  }

  /** One port start extends the paired lists by one. */
  lemma ScanStep(prev: Scanned, idx: seq<nat>, p: Doc, d: Doc, xs: seq<Json>, i: nat, slugOf: string -> string)
    requires |prev.ports| == |idx| && |prev.docs| == |idx|
    requires PortAt(xs, i)
    requires forall k :: 0 <= k < |idx| ==> PortAt(xs, idx[k]) && prev.ports[k] == JsonPort(xs, idx[k], k, slugOf(xs[idx[k]].s))
    requires forall k :: 0 <= k < |idx| ==> PortAt(xs, idx[k]) && prev.docs[k] == JsonMetadataDoc(xs, idx[k], slugOf(xs[idx[k]].s))
    requires p == JsonPort(xs, i, |idx|, slugOf(xs[i].s)) && d == JsonMetadataDoc(xs, i, slugOf(xs[i].s))
    ensures var ports := prev.ports + [p];
      var docs := prev.docs + [d];
      var idx' := idx + [i];
      && (forall k :: 0 <= k < |idx'| ==> PortAt(xs, idx'[k]) && ports[k] == JsonPort(xs, idx'[k], k, slugOf(xs[idx'[k]].s)))
      && (forall k :: 0 <= k < |idx'| ==> PortAt(xs, idx'[k]) && docs[k] == JsonMetadataDoc(xs, idx'[k], slugOf(xs[idx'[k]].s)))
  {
  }

  /** The top-level value `json.load` gives for `pelabuhan.json`, as the scan
      sees it. An object is iterated by its keys in file order and its values
      are never read, so it is given by those keys; a number or a boolean is
      not iterable. */
  datatype TopLevel =
    | TopList(items: seq<Json>)
    | TopObject(keys: seq<string>)
    | TopString(s: string)
    | TopNull
    | TopNumber

  /** The scan of an object's keys from position `i`. The first key holding
      "Pelabuhan" with two more keys after it makes `data[i + 1]` raise
      KeyError, as the keys are strings and never the integer `i + 1`; a key
      among the last two is skipped, and then nothing is found. */
  function ObjectScan(keys: seq<string>, i: nat): Result<Scanned>
    decreases |keys| - i
  {
    if i + 2 >= |keys| then Ok(Scanned([], []))
    else if Contains(keys[i], "Pelabuhan") then Err("KeyError: " + IntToString(i + 1))
    else ObjectScan(keys, i + 1)
  }

  /** An object's scan finds nothing, and raises exactly when a key before
      the last two holds "Pelabuhan", naming the position after the first one. */
  lemma {:induction false} ObjectScanMeaning(keys: seq<string>, i: nat)
    ensures var r := ObjectScan(keys, i);
      && (r.Ok? ==> r.value == Scanned([], []))
      && (r.Err? <==> exists j :: i <= j && j + 2 < |keys| && Contains(keys[j], "Pelabuhan"))
      && (r.Err? ==> exists j :: && i <= j && j + 2 < |keys| && Contains(keys[j], "Pelabuhan")
                                && (forall l :: i <= l < j ==> !Contains(keys[l], "Pelabuhan"))
                                && r.error == "KeyError: " + IntToString(j + 1))
    decreases |keys| - i
  {
    if i + 2 >= |keys| {
    } else if Contains(keys[i], "Pelabuhan") {
      assert ObjectScan(keys, i) == Err("KeyError: " + IntToString(i + 1));
    } else {
      assert ObjectScan(keys, i) == ObjectScan(keys, i + 1);
      ObjectScanMeaning(keys, i + 1);
      var r := ObjectScan(keys, i + 1);
      if r.Err? {
        var j :| && i + 1 <= j && j + 2 < |keys| && Contains(keys[j], "Pelabuhan")
                 && (forall l :: i + 1 <= l < j ==> !Contains(keys[l], "Pelabuhan"))
                 && r.error == "KeyError: " + IntToString(j + 1);
        assert forall l :: i <= l < j ==> !Contains(keys[l], "Pelabuhan");
      }
    }
  }

  /** What the scan gives for the top-level value of `pelabuhan.json`. A
      `null` file is treated as missing; iterating a string yields single
      characters, which never hold "Pelabuhan". */
  function ScanSpec(data: TopLevel): Result<Scanned>
  {
    match data
    case TopList(xs) => Ok(ScanList(xs))
    case TopObject(keys) => ObjectScan(keys, 0)
    case TopString(_) => Ok(Scanned([], []))
    case TopNull => Ok(Scanned([], []))
    case TopNumber => Err("TypeError: object is not iterable")
  }

  /** The scan numbers the ports PORT_001, PORT_002, … in scan order and
      writes one metadata document per port, with the port's slug, name and
      coordinates. */
  lemma ScanPairs(xs: seq<Json>, slugOf: string -> string, k: nat)
    requires k < |ScanPrefix(xs, |xs|, slugOf).ports|
    ensures var s := ScanPrefix(xs, |xs|, slugOf);
      && |s.docs| == |s.ports|
      && s.ports[k]["id"] == JStr("PORT_" + ZeroPad3(k + 1))
      && s.docs[k]["slug"] == s.ports[k]["slug"] && s.docs[k]["port_name"] == s.ports[k]["name"]
      && s.docs[k]["lat"] == s.ports[k]["lat"] && s.docs[k]["lon"] == s.ports[k]["lon"]
  {
    ScanPrefixIndices(xs, |xs|, slugOf);
  }

  /** The scan emits a port for each string containing "Pelabuhan" followed
      by two numbers, with those coordinates ... */
  lemma ScanComplete(xs: seq<Json>, slugOf: string -> string, i: nat)
    requires PortAt(xs, i)
    ensures var s := ScanPrefix(xs, |xs|, slugOf);
      exists k :: 0 <= k < |s.ports| && s.ports[k]["name"] == xs[i]
        && s.ports[k]["lat"] == JFloat(ToFloat(xs[i + 1]).value) && s.ports[k]["lon"] == JFloat(ToFloat(xs[i + 2]).value)
  {
    var idx := PortIndices(xs, |xs|);
    PortIndicesComplete(xs, |xs|, i);
    var k :| 0 <= k < |idx| && idx[k] == i;
    ScanPrefixIndices(xs, |xs|, slugOf);
    assert ScanPrefix(xs, |xs|, slugOf).ports[k] == JsonPort(xs, i, k, slugOf(xs[i].s));
  }

  /** ... and for nothing else: every port comes from such a string. */
  lemma ScanSound(xs: seq<Json>, slugOf: string -> string, k: nat)
    requires k < |ScanPrefix(xs, |xs|, slugOf).ports|
    ensures var s := ScanPrefix(xs, |xs|, slugOf);
      exists j :: PortAt(xs, j) && s.ports[k]["name"] == xs[j] && s.ports[k]["slug"] == JStr(slugOf(xs[j].s))
  {
    var idx := PortIndices(xs, |xs|);
    ScanPrefixIndices(xs, |xs|, slugOf);
    assert PortAt(xs, idx[k]);
  }

  /** The scan loop, as written. */
  method ScanPorts(data: TopLevel) returns (r: Result<Scanned>)
    ensures r == ScanSpec(data)
  {
    if data.TopNull? || data.TopString? {
      return Ok(Scanned([], []));
    }
    if data.TopNumber? {
      return Err("TypeError: object is not iterable");
    }
    if data.TopObject? {
      r := ScanKeys(data.keys);
      return;
    }
    var xs := data.items;
    var ports: seq<Doc> := [];
    var metadataDocs: seq<Doc> := [];
    for i := 0 to |xs|
      invariant ScanPrefix(xs, i, CreateSlug) == Scanned(ports, metadataDocs)
    {
      var item := xs[i];
      if item.JStr? && Contains(item.s, "Pelabuhan") {
        if i + 2 < |xs| {
          var lat := xs[i + 1];
          var lon := xs[i + 2];
          if IsNumber(lat) && IsNumber(lon) {
            var slug := CreateSlug(item.s);
            ports := ports + [JsonPort(xs, i, |ports|, slug)];
            metadataDocs := metadataDocs + [JsonMetadataDoc(xs, i, slug)];
          }
        }
      }
    }
    return Ok(Scanned(ports, metadataDocs));
  }

  /** The scan loop over the keys of an object. */
  method ScanKeys(keys: seq<string>) returns (r: Result<Scanned>)
    ensures r == ObjectScan(keys, 0)
  {
    for i := 0 to |keys|
      invariant ObjectScan(keys, 0) == ObjectScan(keys, i)
    {
      if Contains(keys[i], "Pelabuhan") && i + 2 < |keys| {
        return Err("KeyError: " + IntToString(i + 1));
      }
    }
    return Ok(Scanned([], []));
  }

  /** What `_load_ports_from_json` reads: no file found (None), a file
      `json.load` refuses (Some(Err)), or its top-level value. */
  type PortsFile = Option<Result<TopLevel>>

  /** The ports `_load_ports_from_json` returns; a refused file raises. */
  function JsonPortsSpec(file: PortsFile): Result<Scanned>
  {
    match file
    case None => Ok(Scanned([], []))
    case Some(Err(e)) => Err(e)
    case Some(Ok(data)) => ScanSpec(data)
  }

  /** `_load_ports_from_json`: the metadata documents are saved when there are
      any, and a failed save is caught. */
  method LoadPortsFromJson(store: Store, file: PortsFile) returns (r: Result<seq<Doc>>)
    modifies store`portMetadata, store`clock
    ensures var spec := JsonPortsSpec(file);
      && r == (if spec.Ok? then Ok(spec.value.ports) else Err(spec.error))
      && var docs := if spec.Ok? then spec.value.docs else [];
         var ops := PortMetadataOps(docs, old(store.clock));
         && store.clock == old(store.clock) + |ops|
         && store.portMetadata == (if ops != [] && store.online then BulkWrite(old(store.portMetadata), "slug", ops)
                                   else old(store.portMetadata))
  {
    if file.None? {
      return Ok([]);
    }
    if file.value.Err? {
      return Err(file.value.error);
    }
    var scanned := ScanPorts(file.value.value);
    if scanned.Err? {
      return Err(scanned.error);
    }
    if scanned.value.docs != [] {
      var _ := store.SavePortMetadata(Some(scanned.value.docs));
    }
    return Ok(scanned.value.ports);
  }

  /** A scanned port has the shape of a loaded port, and its slug is a
      well-formed slug. */
  lemma ScannedPortShape(xs: seq<Json>, k: nat)
    requires k < |ScanList(xs).ports|
    ensures PortShape(ScanList(xs).ports[k])
    ensures exists slug :: ScanList(xs).ports[k]["slug"] == JStr(slug) && WellFormedSlug(slug)
  {
    var idx := PortIndices(xs, |xs|);
    ScanPrefixIndices(xs, |xs|, CreateSlug);
    var slug := CreateSlug(xs[idx[k]].s);
    assert ScanList(xs).ports[k] == JsonPort(xs, idx[k], k, slug);
    assert Truthy(JStr("PORT_" + ZeroPad3(k + 1)));
    CreateSlugWellFormed(xs[idx[k]].s);
  }

  // ------------------------------------------------------------ load_pelabuhan_data

  /** The ports `load_pelabuhan_data` gives: those of the metadata
      collection when there are any, otherwise those of the file. */
  function LoadedPorts(online: bool, metadata: seq<Doc>, file: PortsFile): Result<seq<Doc>>
  {
    var mongo := if online then MongoPorts(metadata) else Ok([]);
    if mongo.Err? || mongo.value != [] then mongo
    else
      var spec := JsonPortsSpec(file);
      if spec.Ok? then Ok(spec.value.ports) else Err(spec.error)
  }

  /** The metadata write-back of `load_pelabuhan_data`: the operations saving
      the file's documents, which exist only when the metadata collection
      gave no ports and the file was scanned. */
  function FileMetadataOps(online: bool, metadata: seq<Doc>, file: PortsFile, clock: int): seq<UpdateOne>
  {
    var mongo := if online then MongoPorts(metadata) else Ok([]);
    var spec := JsonPortsSpec(file);
    if mongo == Ok([]) && spec.Ok? then PortMetadataOps(spec.value.docs, clock) else []
  }

  /** The port metadata collection after `ops` were saved, when there are any
      and the server is up. */
  function MetadataAfter(online: bool, metadata: seq<Doc>, ops: seq<UpdateOne>): seq<Doc>
  {
    if ops != [] && online then BulkWrite(metadata, "slug", ops) else metadata
  }

  /** `load_pelabuhan_data`: the metadata collection's ports when there are
      any; only otherwise the file is read, and its documents saved. */
  method LoadPelabuhanData(store: Store, file: PortsFile) returns (r: Result<seq<Doc>>)
    modifies store`portMetadata, store`clock
    ensures r == LoadedPorts(store.online, old(store.portMetadata), file)
    ensures var mongo := if store.online then MongoPorts(old(store.portMetadata)) else Ok([]);
      && (mongo.Err? ==> r == mongo)
      && (mongo.Ok? && mongo.value != [] ==> r == mongo)
      && (mongo == Ok([]) ==> r == (if JsonPortsSpec(file).Ok? then Ok(JsonPortsSpec(file).value.ports) else Err(JsonPortsSpec(file).error)))
    ensures var ops := FileMetadataOps(store.online, old(store.portMetadata), file, old(store.clock));
      && store.clock == old(store.clock) + |ops|
      && store.portMetadata == MetadataAfter(store.online, old(store.portMetadata), ops)
  {
    var ports := LoadPortsFromMongo(store);
    if ports.Err? {
      return ports;
    }
    if ports.value != [] {
      return ports;
    }
    r := LoadPortsFromJson(store, file);
  }

  // ------------------------------------------------------------ fetch_port_weather

  /** What `requests.get` does: answer with a status code and a body that
      `response.json()` decodes or refuses, or raise. */
  datatype HttpReply = Answer(status: int, body: Result<Json>) | Failure(message: string)

  /** The fields every outcome carries. */
  function Outcome(name: Json, slug: Json, lat: Json, lon: Json, c: Classified, fetchedAt: string): (d: Doc)
    ensures "port_name" in d && d["port_name"] == name
    ensures "slug" in d && d["slug"] == slug
    ensures "coordinates" in d && d["coordinates"] == JObj(map["lat" := lat, "lon" := lon])
    ensures "weather_data" in d && d["weather_data"] == c.weather
    ensures "status" in d && d["status"] == JStr(c.status)
    ensures "error" in d <==> c.error.Some?
    ensures c.error.Some? ==> d["error"] == JStr(c.error.value)
  {
    var d := map[
      "port_name" := name,
      "slug" := slug,
      "coordinates" := JObj(map["lat" := lat, "lon" := lon]),
      "weather_data" := c.weather,
      "fetched_at" := JStr(fetchedAt),
      "status" := JStr(c.status)];
    if c.error.Some? then d["error" := JStr(c.error.value)] else d
  }

  /** How an answer is classified: the status, the payload kept, the error text. */
  datatype Classified = Classified(status: string, weather: Json, error: Option<string>)

  function Classify(reply: HttpReply): Classified
  {
    match reply
    case Failure(m) => Classified("error", JNull, Some(m))
    case Answer(code, body) =>
      if code != 200 then Classified("failed", JNull, Some("HTTP " + IntToString(code)))
      else match body
        case Ok(w) => Classified("success", w, None)
        case Err(m) => Classified("error", JNull, Some(m))
  }

  /** The fetch's `slug or create_slug(port_name)`: the name is not
      defaulted, so a falsy slug beside any name that is no string, None
      included, raises TypeError. */
  function FetchSlug(slug: Json, name: Json): Result<Json>
  {
    if Truthy(slug) then Ok(slug)
    else if name.JStr? then Ok(JStr(CreateSlug(name.s)))
    else Err("TypeError: expected string or bytes-like object")
  }

  /** The fetch's fallback raises exactly when there is no slug and the name
      is no string; otherwise a truthy slug is kept and a missing one is the
      well-formed slug of the name. */
  lemma FetchSlugRaises(slug: Json, name: Json)
    ensures FetchSlug(slug, name).Err? <==> !Truthy(slug) && !name.JStr?
    ensures Truthy(slug) ==> FetchSlug(slug, name) == Ok(slug)
    ensures !Truthy(slug) && name.JStr? ==>
      FetchSlug(slug, name) == Ok(JStr(CreateSlug(name.s))) && WellFormedSlug(CreateSlug(name.s))
  {
    if !Truthy(slug) && name.JStr? {
      CreateSlugWellFormed(name.s);
    }
  }

  /** The two fallbacks differ exactly for a falsy slug beside a falsy name
      that is no string: the loader then gives the slug "", and the fetch of
      that port raises. */
  lemma SlugFallbacksDiffer(slug: Json, name: Json)
    ensures FetchSlug(slug, name) != SlugOr(slug, name) <==> !Truthy(slug) && !Truthy(name) && !name.JStr?
    ensures !Truthy(slug) && !Truthy(name) && !name.JStr? ==>
      SlugOr(slug, name) == Ok(JStr("")) && FetchSlug(JStr(""), name).Err?
  {
    CreateSlugEmpty();
  }

  /** `fetch_port_weather`. Computing a missing slug from a name that is no
      string raises inside the `try`, and again inside the handler, so that
      error escapes; a request that raises is caught and reported. */
  function FetchPortWeather(name: Json, lat: Json, lon: Json, slug: Json, reply: HttpReply, fetchedAt: string): (r: Result<Doc>)
  {
    match FetchSlug(slug, name)
    case Err(e) => Err(e)
    case Ok(s) => Ok(Outcome(name, s, lat, lon, Classify(reply), fetchedAt))
  }

  /** The fetch raises exactly when there is no slug and the name is no
      string; otherwise it gives one outcome carrying the slug, the name and
      the coordinates. */
  lemma FetchPortWeatherRaises(name: Json, lat: Json, lon: Json, slug: Json, reply: HttpReply, fetchedAt: string)
    ensures var r := FetchPortWeather(name, lat, lon, slug, reply, fetchedAt);
      && (r.Err? <==> !Truthy(slug) && !name.JStr?)
      && (r.Ok? ==> && r.value["slug"] == (if Truthy(slug) then slug else JStr(CreateSlug(name.s)))
                    && r.value["coordinates"] == JObj(map["lat" := lat, "lon" := lon])
                    && r.value["port_name"] == name
                    && r.value["status"] == JStr(Classify(reply).status))
  {
    var f := FetchSlug(slug, name);
    if f.Ok? {
      var r := Outcome(name, f.value, lat, lon, Classify(reply), fetchedAt);
      assert FetchPortWeather(name, lat, lon, slug, reply, fetchedAt) == Ok(r);
    }
  }

  /** Success with the payload iff the service answered 200 with JSON,
      failed with "HTTP <code>" for any other status, error otherwise; only
      success comes without an error text. */
  lemma ClassifyMeaning(reply: HttpReply)
    ensures var c := Classify(reply);
      && (c.status == "success" <==> reply.Answer? && reply.status == 200 && reply.body.Ok?)
      && (c.status == "failed" <==> reply.Answer? && reply.status != 200)
      && (c.status == "error" <==> !(reply.Answer? && (reply.status != 200 || reply.body.Ok?)))
      && (c.error.None? <==> c.status == "success")
      && (c.status == "success" ==> c.weather == reply.body.value)
      && (c.status != "success" ==> c.weather == JNull)
      && (reply.Answer? && reply.status != 200 ==> c.error == Some("HTTP " + IntToString(reply.status)))
      && (reply.Failure? ==> c.error == Some(reply.message))
  {
  }

  // ------------------------------------------------------------ main

  predicate IsSuccess(result: Doc)
  {
    Get(result, "status") == JStr("success")
  }

  /** The fetch of port `p`, the `i`-th, answered by `replies(i)` at time `clock(i)`. */
  function PortFetch(replies: nat -> HttpReply, clock: nat -> string): (Doc, nat) -> Result<Doc>
  {
    (p: Doc, i: nat) => FetchPortWeather(Get(p, "name"), Get(p, "lat"), Get(p, "lon"), Get(p, "slug"), replies(i), clock(i))
  }

  /** A metadata document with coordinates but neither a slug nor a string
      name loads as a port whose slug is "", and the fetch of that port
      raises, so `main` stops before anything is saved. */
  lemma NamelessMongoPortRaises(doc: Doc, count: nat, reply: HttpReply, fetchedAt: string)
    requires MongoPort(doc, count).Ok? && MongoPort(doc, count).value.Some?
    requires !Truthy(Get(doc, "slug")) && !Or(Get(doc, "port_name"), Get(doc, "name")).JStr?
    ensures var p := MongoPort(doc, count).value.value;
      && Get(p, "slug") == JStr("")
      && FetchPortWeather(Get(p, "name"), Get(p, "lat"), Get(p, "lon"), Get(p, "slug"), reply, fetchedAt).Err?
  {
    var lat := Or(Get(doc, "lat"), Get(doc, "latitude"));
    var lon := Or(Get(doc, "lon"), Get(doc, "longitude"));
    var name := Or(Get(doc, "port_name"), Get(doc, "name"));
    SlugOrRaises(Get(doc, "slug"), name);
    SlugFallbacksDiffer(Get(doc, "slug"), name);
    var id := Or(Get(doc, "id"), Or(Get(doc, "slug"), JStr("PORT_" + ZeroPad3(count + 1))));
    var p := PortRecord(id, name, PyFloat(lat).value, PyFloat(lon).value, JStr(""));
    assert MongoPort(doc, count) == Ok(Some(p));
    FetchSlugRaises(JStr(""), name);
    assert Get(p, "slug") == JStr("") && Get(p, "name") == name;
  }

  /** The results of the loop over the ports, port `i` fetched by `fetch(ports[i], i)`. */
  function PortResults(ports: seq<Doc>, fetch: (Doc, nat) -> Result<Doc>): Result<seq<Doc>>
  {
    if ports == [] then Ok([])
    else match PortResults(ports[..|ports| - 1], fetch)
      case Err(e) => Err(e)
      case Ok(results) =>
        match fetch(ports[|ports| - 1], |ports| - 1)
        case Err(e) => Err(e)
        case Ok(d) => Ok(results + [d])
  }

  /** One result per port, in order, each the outcome of its own fetch; the
      loop raises exactly when some fetch raises. */
  lemma {:induction false} PortResultsMeaning(ports: seq<Doc>, fetch: (Doc, nat) -> Result<Doc>)
    ensures PortResults(ports, fetch).Ok? <==> forall i :: 0 <= i < |ports| ==> fetch(ports[i], i).Ok?
    ensures PortResults(ports, fetch).Ok? ==>
      var rs := PortResults(ports, fetch).value;
      |rs| == |ports| && forall i :: 0 <= i < |ports| ==> fetch(ports[i], i) == Ok(rs[i])
    decreases |ports|
  {
    if ports != [] {
      var init := ports[..|ports| - 1];
      PortResultsMeaning(init, fetch);
      assert forall i :: 0 <= i < |init| ==> init[i] == ports[i];
    }
  }

  /** The loop of `main` raises exactly when some port has neither a truthy
      slug nor a string name. */
  lemma PortResultsRaise(ports: seq<Doc>, replies: nat -> HttpReply, clock: nat -> string)
    ensures PortResults(ports, PortFetch(replies, clock)).Err? <==>
      exists i :: 0 <= i < |ports| && !Truthy(Get(ports[i], "slug")) && !Get(ports[i], "name").JStr?
  {
    var fetch := PortFetch(replies, clock);
    PortResultsMeaning(ports, fetch);
    forall i | 0 <= i < |ports|
      ensures fetch(ports[i], i).Err? <==> !Truthy(Get(ports[i], "slug")) && !Get(ports[i], "name").JStr?
    {
      var p := ports[i];
      FetchPortWeatherRaises(Get(p, "name"), Get(p, "lat"), Get(p, "lon"), Get(p, "slug"), replies(i), clock(i));
    }
  }

  /** The run summary: the results saved, and the two counters. */
  datatype Summary = Summary(results: seq<Doc>, successful: nat, failed: nat)

  /** The port weather collection after the results were upserted by slug,
      stamped from `clock` on, when the server is up. */
  function SavedPortWeather(online: bool, before: seq<Doc>, results: seq<Doc>, clock: int): seq<Doc>
  {
    if online then BulkWrite(before, "slug", PortWeatherOps(results, clock)) else before
  }

  /** What the fetch-and-save part of `main` leaves in the port weather
      collection and on the clock, given the loader's answer: an error, no
      ports or a fetch that raises change neither; otherwise the results are
      saved, stamped from `clockValue` on. */
  function RunEffect(online: bool, weather: seq<Doc>, loaded: Result<seq<Doc>>,
                     replies: nat -> HttpReply, clock: nat -> string, clockValue: int): (seq<Doc>, int)
  {
    if loaded.Err? || loaded.value == [] then (weather, clockValue)
    else match PortResults(loaded.value, PortFetch(replies, clock))
      case Err(_) => (weather, clockValue)
      case Ok(results) => (SavedPortWeather(online, weather, results, clockValue), clockValue + |results|)
  }

  /** `main`. A run without ports ends before any fetch; otherwise every port
      is fetched, counted as successful or failed, followed by a 500 ms pause,
      and all results, failures included, are upserted by slug. */
  method CollectPorts(store: Store, file: PortsFile, replies: nat -> HttpReply, clock: nat -> string)
      returns (r: Result<Summary>, sleepsMs: seq<nat>)
    modifies store`portMetadata, store`portWeather, store`clock
    ensures r.Ok? ==> |r.value.results| == |sleepsMs| && r.value.successful + r.value.failed == |r.value.results|
    ensures r.Ok? ==> r.value.successful == |Filter(r.value.results, IsSuccess)|
    ensures forall j :: 0 <= j < |sleepsMs| ==> sleepsMs[j] == 500
    ensures var ops := FileMetadataOps(store.online, old(store.portMetadata), file, old(store.clock));
      store.portMetadata == MetadataAfter(store.online, old(store.portMetadata), ops)
    ensures (store.portWeather, store.clock)
         == RunEffect(store.online, old(store.portWeather), LoadedPorts(store.online, old(store.portMetadata), file), replies, clock,
                      old(store.clock) + |FileMetadataOps(store.online, old(store.portMetadata), file, old(store.clock))|)
    ensures var loaded := LoadedPorts(store.online, old(store.portMetadata), file);
      && (loaded.Err? ==> r == Err(loaded.error))
      && (loaded == Ok([]) ==> r == Ok(Summary([], 0, 0)))
      && (loaded.Ok? && loaded.value != [] ==>
            var results := PortResults(loaded.value, PortFetch(replies, clock));
            && (results.Err? ==> r == Err(results.error))
            && (results.Ok? ==> r.Ok? && r.value.results == results.value && |sleepsMs| == |loaded.value|))
  {
    var loaded := LoadPelabuhanData(store, file);
    r, sleepsMs := RunLoaded(store, loaded, replies, clock);
  }

  /** `main` once the loader has answered: an error or no ports end the run,
      otherwise the ports are fetched and the results saved. */
  method RunLoaded(store: Store, loaded: Result<seq<Doc>>, replies: nat -> HttpReply, clock: nat -> string)
      returns (r: Result<Summary>, sleepsMs: seq<nat>)
    modifies store`portWeather, store`clock
    ensures r.Ok? ==> |r.value.results| == |sleepsMs| && r.value.successful + r.value.failed == |r.value.results|
    ensures r.Ok? ==> r.value.successful == |Filter(r.value.results, IsSuccess)|
    ensures forall j :: 0 <= j < |sleepsMs| ==> sleepsMs[j] == 500
    ensures loaded.Err? ==> r == Err(loaded.error) && store.portWeather == old(store.portWeather) && store.clock == old(store.clock)
    ensures loaded == Ok([]) ==> r == Ok(Summary([], 0, 0)) && store.portWeather == old(store.portWeather) && store.clock == old(store.clock)
    ensures loaded.Ok? && loaded.value != [] ==>
      var results := PortResults(loaded.value, PortFetch(replies, clock));
      && (results.Err? ==> r == Err(results.error) && store.portWeather == old(store.portWeather) && store.clock == old(store.clock))
      && (results.Ok? ==>
            && r.Ok? && r.value.results == results.value && |sleepsMs| == |loaded.value|
            && store.clock == old(store.clock) + |results.value|
            && store.portWeather == SavedPortWeather(store.online, old(store.portWeather), results.value, old(store.clock)))
    ensures (store.portWeather, store.clock) == RunEffect(store.online, old(store.portWeather), loaded, replies, clock, old(store.clock))
  {
    sleepsMs := [];
    if loaded.Err? {
      return Err(loaded.error), sleepsMs;
    }
    var ports := loaded.value;
    if ports == [] {
      return Ok(Summary([], 0, 0)), sleepsMs;
    }
    r, sleepsMs := FetchAndSave(store, ports, replies, clock);
  }

  /** The loop of `main` over a non-empty port list, then the save. */
  method FetchAndSave(store: Store, ports: seq<Doc>, replies: nat -> HttpReply, clock: nat -> string)
      returns (r: Result<Summary>, sleepsMs: seq<nat>)
    requires ports != []
    modifies store`portWeather, store`clock
    ensures r.Ok? ==> |r.value.results| == |sleepsMs| == |ports| && r.value.successful + r.value.failed == |r.value.results|
    ensures r.Ok? ==> r.value.successful == |Filter(r.value.results, IsSuccess)|
    ensures forall j :: 0 <= j < |sleepsMs| ==> sleepsMs[j] == 500
    ensures var results := PortResults(ports, PortFetch(replies, clock));
      && (results.Err? ==> r == Err(results.error) && store.portWeather == old(store.portWeather) && store.clock == old(store.clock))
      && (results.Ok? ==>
            && r.Ok? && r.value.results == results.value
            && store.clock == old(store.clock) + |results.value|
            && store.portWeather == SavedPortWeather(store.online, old(store.portWeather), results.value, old(store.clock)))
  {
    sleepsMs := [];
    var summary := FetchAll(ports, replies, clock);
    if summary.Err? {
      return Err(summary.error), sleepsMs;
    }
    sleepsMs := seq(|ports|, _ => 500);
    var _ := store.SavePortWeatherData(Some(summary.value.results));
    return summary, sleepsMs;
  }

  /** The counting loop of `main`. */
  method FetchAll(ports: seq<Doc>, replies: nat -> HttpReply, clock: nat -> string) returns (r: Result<Summary>)
    ensures r.Ok? <==> PortResults(ports, PortFetch(replies, clock)).Ok?
    ensures r.Err? ==> r.error == PortResults(ports, PortFetch(replies, clock)).error
    ensures r.Ok? ==> && r.value.results == PortResults(ports, PortFetch(replies, clock)).value
                      && |r.value.results| == |ports|
                      && r.value.successful == |Filter(r.value.results, IsSuccess)|
                      && r.value.successful + r.value.failed == |ports|
  {
    ghost var fetch := PortFetch(replies, clock);
    var results: seq<Doc> := [];
    var successful: nat := 0;
    var failed: nat := 0;
    for i := 0 to |ports|
      invariant PortResults(ports[..i], fetch) == Ok(results)
      invariant |results| == i
      invariant successful == |Filter(results, IsSuccess)|
      invariant successful + failed == i
    {
      var port := ports[i];
      assert ports[..i + 1][..i] == ports[..i];
      var result := FetchPortWeather(Get(port, "name"), Get(port, "lat"), Get(port, "lon"), Get(port, "slug"), replies(i), clock(i));
      assert result == fetch(port, i);
      if result.Err? {
        PortResultsErrStays(ports, fetch, i + 1);
        return Err(result.error);
      }
      FilterSnoc(results, result.value, IsSuccess);
      results := results + [result.value];
      if Get(result.value, "status") == JStr("success") {
        successful := successful + 1;
      } else {
        failed := failed + 1;
      }
    }
    assert ports[..|ports|] == ports;
    return Ok(Summary(results, successful, failed));
  }

  /** Once the fetch of some port raises, the whole loop raises that error. */
  lemma {:induction false} PortResultsErrStays(ports: seq<Doc>, fetch: (Doc, nat) -> Result<Doc>, k: nat)
    requires 0 < k <= |ports| && PortResults(ports[..k], fetch).Err?
    ensures PortResults(ports, fetch) == PortResults(ports[..k], fetch)
    decreases |ports| - k
  {
    if k < |ports| {
      assert ports[..k + 1][..k] == ports[..k];
      PortResultsErrStays(ports, fetch, k + 1);
    } else {
      assert ports[..k] == ports;
    }
  }
}
