/** `backend/collectors/pelabuhan/create_port_data.py`: collapse the
    successful port results into the map file `namaPelabuhan.json`, keyed
    by port name, with each port's coordinates and slug. */
module CreatePortData {
  import opened Common
  import opened Json

  /** `{'latitude': coordinates['lat'], 'longitude': coordinates['lon'], 'slug': port['slug']}`. */
  function PortValue(lat: Json, lon: Json, slug: Json): (d: Doc)
    ensures d.Keys == {"latitude", "longitude", "slug"}
    ensures d["latitude"] == lat && d["longitude"] == lon && d["slug"] == slug
  {
    map["latitude" := lat, "longitude" := lon, "slug" := slug]
  }

  /** What one entry of the decoded list contributes: nothing unless its
      status is `success`, otherwise its key and value; a missing field, a
      subscript on a non-dict or an unhashable name raises. */
  function Entry(port: Json): Result<Option<(Json, Doc)>>
  {
    match Subscript(port, JStr("status"))
    case Err(e) => Err(e)
    case Ok(status) =>
      if status != JStr("success") then Ok(None)
      else match Subscript(port, JStr("port_name"))
        case Err(e) => Err(e)
        case Ok(name) =>
          match Subscript(port, JStr("coordinates"))
          case Err(e) => Err(e)
          case Ok(coordinates) =>
            match Subscript(coordinates, JStr("lat"))
            case Err(e) => Err(e)
            case Ok(lat) =>
              match Subscript(coordinates, JStr("lon"))
              case Err(e) => Err(e)
              case Ok(lon) =>
                match Subscript(port, JStr("slug"))
                case Err(e) => Err(e)
                case Ok(slug) =>
                  match HashKey(name)
                  case None => Err("TypeError: unhashable type")
                  case Some(key) => Ok(Some((key, PortValue(lat, lon, slug))))
  }

  /** A success entry whose fields are all there contributes its name and
      those fields; any other status contributes nothing. */
  lemma EntryOfPort(m: Doc)
    requires "status" in m
    ensures m["status"] != JStr("success") ==> Entry(JObj(m)) == Ok(None)
    ensures (m["status"] == JStr("success") && "port_name" in m && "slug" in m && "coordinates" in m
      && m["coordinates"].JObj? && "lat" in m["coordinates"].fields && "lon" in m["coordinates"].fields
      && HashKey(m["port_name"]).Some?) ==>
        Entry(JObj(m)) == Ok(Some((HashKey(m["port_name"]).value,
          PortValue(m["coordinates"].fields["lat"], m["coordinates"].fields["lon"], m["slug"]))))
  {
  }

  /** What one entry contributes to the collapse. */
  type Contribution = Result<Option<(Json, Doc)>>

  /** The keyed collapse of the entries, each entry's contribution given
      by `f`: later keys overwrite, the first entry that raises aborts. */
  function Collapse(ports: seq<Json>, f: Json -> Contribution): Result<map<Json, Doc>>
  {
    if ports == [] then Ok(map[])
    else match Collapse(ports[..|ports| - 1], f)
      case Err(e) => Err(e)
      case Ok(simplified) =>
        match f(ports[|ports| - 1])
        case Err(e) => Err(e)
        case Ok(None) => Ok(simplified)
        case Ok(Some(kv)) => Ok(simplified[kv.0 := kv.1])
  }

  /** `simplified_ports` after the loop over `ports`; the first entry that
      raises aborts (nothing is written). */
  function Simplify(ports: seq<Json>): Result<map<Json, Doc>>
  {
    Collapse(ports, Entry)
  }

  /** Entry `i` contributes `key`. */
  predicate KeyedAt(ports: seq<Json>, i: int, key: Json, f: Json -> Contribution)
  {
    0 <= i < |ports| && f(ports[i]).Ok? && f(ports[i]).value.Some? && f(ports[i]).value.value.0 == key
  }

  /** The number of entries that contribute a key. */
  function Contributing(ports: seq<Json>, f: Json -> Contribution): nat
  {
    if ports == [] then 0
    else
      var last := f(ports[|ports| - 1]);
      Contributing(ports[..|ports| - 1], f) + (if last.Ok? && last.value.Some? then 1 else 0)
  }

  /** The collapse fails exactly when some entry raises. */
  lemma {:induction false} CollapseErrors(ports: seq<Json>, f: Json -> Contribution)
    ensures Collapse(ports, f).Err? <==> exists i :: 0 <= i < |ports| && f(ports[i]).Err?
    decreases |ports|
  {
    if ports != [] {
      var n := |ports| - 1;
      CollapseErrors(ports[..n], f);
      assert forall i :: 0 <= i < n ==> ports[..n][i] == ports[i];
    }
  }

  /** The keys of the map are exactly the names some entry contributes. */
  lemma {:induction false} CollapseKeys(ports: seq<Json>, key: Json, f: Json -> Contribution)
    requires Collapse(ports, f).Ok?
    ensures key in Collapse(ports, f).value <==> exists i :: KeyedAt(ports, i, key, f)
    decreases |ports|
  {
    if ports != [] {
      var n := |ports| - 1;
      var init := ports[..n];
      CollapseKeys(init, key, f);
      assert forall i :: 0 <= i < n ==> init[i] == ports[i];
      assert forall i :: KeyedAt(init, i, key, f) ==> KeyedAt(ports, i, key, f);
      assert forall i :: KeyedAt(ports, i, key, f) && i < n ==> KeyedAt(init, i, key, f);
      var e := f(ports[n]);
      if e.Ok? && e.value.Some? {
        assert Collapse(ports, f).value == Collapse(init, f).value[e.value.value.0 := e.value.value.1];
        if key == e.value.value.0 {
          assert KeyedAt(ports, n, key, f);
        } else {
          assert !KeyedAt(ports, n, key, f);
        }
      } else {
        assert Collapse(ports, f).value == Collapse(init, f).value;
        assert !KeyedAt(ports, n, key, f);
      }
    }
  }

  /** Later wins: a key's value is the one the LAST entry with that key contributed. */
  lemma {:induction false} CollapseLastWins(ports: seq<Json>, key: Json, f: Json -> Contribution)
    requires Collapse(ports, f).Ok? && key in Collapse(ports, f).value
    ensures exists i ::
      && KeyedAt(ports, i, key, f) && Collapse(ports, f).value[key] == f(ports[i]).value.value.1
      && forall j :: i < j < |ports| ==> !KeyedAt(ports, j, key, f)
    decreases |ports|
  {
    var n := |ports| - 1;
    var init := ports[..n];
    if KeyedAt(ports, n, key, f) {
      assert Collapse(ports, f).value[key] == f(ports[n]).value.value.1;
    } else {
      CollapseLastWins(init, key, f);
      var i :| KeyedAt(init, i, key, f) && Collapse(init, f).value[key] == f(init[i]).value.value.1
        && forall j :: i < j < n ==> !KeyedAt(init, j, key, f);
      assert init[i] == ports[i];
      forall j | i < j < |ports| ensures !KeyedAt(ports, j, key, f) {
        if j < n { assert init[j] == ports[j]; assert !KeyedAt(init, j, key, f); }
      }
    }
  }

  /** There are never more keys in the map than contributing entries. */
  lemma {:induction false} CollapseSize(ports: seq<Json>, f: Json -> Contribution)
    requires Collapse(ports, f).Ok?
    ensures |Collapse(ports, f).value| <= Contributing(ports, f)
    decreases |ports|
  {
    if ports != [] {
      var n := |ports| - 1;
      CollapseSize(ports[..n], f);
      var m := Collapse(ports[..n], f).value;
      var e := f(ports[n]);
      if e.value.Some? {
        var kv := e.value.value;
        assert m[kv.0 := kv.1].Keys == m.Keys + {kv.0};
        assert |m.Keys + {kv.0}| <= |m.Keys| + |{kv.0}|;
      }
    }
  }

  /** Stated for the source's entries: the map holds one port per name of a
      success entry, with the coordinates and slug of the last such entry,
      and never more ports than success entries. */
  lemma SimplifyMeaning(ports: seq<Json>, key: Json)
    ensures Simplify(ports).Err? <==> exists i :: 0 <= i < |ports| && Entry(ports[i]).Err?
    ensures Simplify(ports).Ok? ==> |Simplify(ports).value| <= Contributing(ports, Entry)
    ensures Simplify(ports).Ok? ==> (key in Simplify(ports).value <==> exists i :: KeyedAt(ports, i, key, Entry))
    ensures Simplify(ports).Ok? && key in Simplify(ports).value ==>
      exists i ::
        && KeyedAt(ports, i, key, Entry) && Simplify(ports).value[key] == Entry(ports[i]).value.value.1
        && forall j :: i < j < |ports| ==> !KeyedAt(ports, j, key, Entry)
  {
    CollapseErrors(ports, Entry);
    if Simplify(ports).Ok? {
      CollapseSize(ports, Entry);
      CollapseKeys(ports, key, Entry);
      if key in Simplify(ports).value {
        CollapseLastWins(ports, key, Entry);
      }
    }
  }

  lemma {:induction false} CollapseErrStays(ports: seq<Json>, k: nat, f: Json -> Contribution)
    requires 0 < k <= |ports| && Collapse(ports[..k], f).Err?
    ensures Collapse(ports, f) == Collapse(ports[..k], f)
    decreases |ports| - k
  {
    if k < |ports| {
      assert ports[..k + 1][..k] == ports[..k];
      CollapseErrStays(ports, k + 1, f);
    } else {
      assert ports[..k] == ports;
    }
  }

  /** The loop of `create_simplified_port_data`. */
  method CreateSimplifiedPortData(ports: seq<Json>) returns (r: Result<map<Json, Doc>>)
    ensures r == Simplify(ports)
  {
    var simplified: map<Json, Doc> := map[];
    for i := 0 to |ports|
      invariant Simplify(ports[..i]) == Ok(simplified)
    {
      assert ports[..i + 1][..i] == ports[..i];
      var e := Entry(ports[i]);
      if e.Err? {
        CollapseErrStays(ports, i + 1, Entry);
        return Err(e.error);
      }
      if e.value.Some? {
        var (portName, value) := e.value.value;
        simplified := simplified[portName := value];
      }
    }
    assert ports[..|ports|] == ports;
    return Ok(simplified);
  }
}
