/** The BMKG harbour scraper, `pelabuhan/cuaca_pelabuhan.py`: turn a harbour
    name into a slug, walk the reference table of the site's `_payload.json`
    to collect the slugs of every harbour, and fetch one harbour's forecast
    with a fixed number of retries. */
module CuacaPelabuhan {
  import opened Common
  import opened Json
  import opened Text

  // ------------------------------------------------------------ generate_slug_from_name

  /** `generate_slug_from_name`: no string gives ""; otherwise the text is
      lower-cased, every run of characters outside `[a-z0-9]` becomes one
      `-`, and hyphens at either end are stripped. */
  function GenerateSlug(name: Json): string
  {
    if !name.JStr? then ""
    else Strip(ReplaceRuns(Lower(name.s), NotSlugChar, '-'), IsDash)
  }

  predicate SlugOrDash(c: char) { IsSlugChar(c) || c == '-' }

  /** Every slug is made of `[a-z0-9]` and single inner hyphens. */
  lemma GenerateSlugWellFormed(name: Json)
    ensures WellFormedSlug(GenerateSlug(name))
  {
    if name.JStr? {
      var l := Lower(name.s);
      ReplaceRunsAlphabet(l, NotSlugChar, '-', SlugOrDash);
      ReplaceRunsNoDouble(l, NotSlugChar, '-');
      StripDashesWellFormed(ReplaceRuns(l, NotSlugChar, '-'));
    }
  }

  /** Stripping the hyphens off text of slug characters and single hyphens
      leaves a well-formed slug. */
  lemma StripDashesWellFormed(c: string)
    requires forall i :: 0 <= i < |c| ==> SlugOrDash(c[i])
    requires NoDouble(c, '-')
    ensures WellFormedSlug(Strip(c, IsDash))
  {
    StripKeeps(c, IsDash, SlugOrDash);
    StripNoDouble(c, IsDash, '-');
  }

  /** A well-formed slug is its own slug, so slugging is idempotent. */
  lemma GenerateSlugFixesSlugs(s: string)
    requires WellFormedSlug(s)
    ensures GenerateSlug(JStr(s)) == s
  {
    assert Lower(s) == s;
    SingleRunsKept(s, NotSlugChar, '-');
    StripUnchanged(s, IsDash);
  }

  /** The example of the docstring: "Pelabuhan Pomalaa/Dawi-dawi" gives
      "pelabuhan-pomalaa-dawi-dawi". */
  lemma GenerateSlugExample()
    ensures GenerateSlug(JStr("Pelabuhan Pomalaa/Dawi-dawi")) == "pelabuhan-pomalaa-dawi-dawi"
  {
    SlugExampleLower();
    SlugExampleRuns();
    StripUnchanged("pelabuhan-pomalaa-dawi-dawi", IsDash);
  }

  lemma SlugExampleLower()
    ensures Lower("Pelabuhan Pomalaa/Dawi-dawi") == "pelabuhan" + (" " + ("pomalaa" + ("/" + ("dawi" + ("-" + "dawi")))))
  {
  }

  lemma SlugExampleRuns()
    ensures ReplaceRuns("pelabuhan" + (" " + ("pomalaa" + ("/" + ("dawi" + ("-" + "dawi"))))), NotSlugChar, '-')
      == "pelabuhan-pomalaa-dawi-dawi"
  {
    SlugExampleTail();
    WordThenSeparator("pelabuhan", ' ', "pomalaa" + ("/" + ("dawi" + ("-" + "dawi"))), NotSlugChar, '-');
    SlugExampleJoin("pelabuhan", "pomalaa-dawi-dawi");
  }

  lemma SlugExampleJoin(a: string, b: string)
    requires a == "pelabuhan" && b == "pomalaa-dawi-dawi"
    ensures a + ("-" + b) == "pelabuhan-pomalaa-dawi-dawi"
  {
  }

  lemma SlugExampleTail()
    ensures ReplaceRuns("pomalaa" + ("/" + ("dawi" + ("-" + "dawi"))), NotSlugChar, '-') == "pomalaa-dawi-dawi"
  {
    SlugExampleLast();
    WordThenSeparator("pomalaa", '/', "dawi" + ("-" + "dawi"), NotSlugChar, '-');
    assert "pomalaa" + ("-" + "dawi-dawi") == "pomalaa-dawi-dawi";
  }

  lemma SlugExampleLast()
    ensures ReplaceRuns("dawi" + ("-" + "dawi"), NotSlugChar, '-') == "dawi-dawi"
  {
    ReplaceRunsWord("dawi", [], NotSlugChar, '-');
    WordThenSeparator("dawi", '-', "dawi", NotSlugChar, '-');
    assert "dawi" + ("-" + "dawi") == "dawi-dawi";
  }

  lemma GenerateSlugIdempotent(name: Json)
    ensures GenerateSlug(JStr(GenerateSlug(name))) == GenerateSlug(name)
  {
    GenerateSlugWellFormed(name);
    GenerateSlugFixesSlugs(GenerateSlug(name));
  }

  /** Replacing runs leaves alone a text whose only matching characters are
      single copies of the replacement. */
  lemma {:induction false} SingleRunsKept(s: string, p: char -> bool, rep: char)
    requires forall i :: 0 <= i < |s| ==> (p(s[i]) <==> s[i] == rep)
    requires NoDouble(s, rep)
    ensures ReplaceRuns(s, p, rep) == s
    decreases |s|
  {
    if s != [] {
      var t := s[1..];
      assert NoDouble(t, rep) by {
        forall i | 0 <= i < |t| - 1 ensures !(t[i] == rep && t[i + 1] == rep) {
          assert t[i] == s[i + 1] && t[i + 1] == s[i + 2];
        }
      }
      SingleRunsKept(t, p, rep);
      if p(s[0]) {
        assert t != [] ==> t[0] == s[1] && !p(t[0]);
        assert DropWhile(t, p) == t;
      }
      assert s == [s[0]] + t;
    }
  }

  // ------------------------------------------------------------ parse_bmkg_payload

  /** The references a `for` loop of the walk takes from `v`. A list gives
      its items. A string or a dict gives strings (its characters, its keys),
      and the walk uses each one to index the payload, which is then a list
      or a string, so the first one raises TypeError (see
      `Json.SubscriptByStringFails`); empty ones give nothing. Any other value
      is not iterable. */
  function RefsOf(v: Json): Result<seq<Json>>
  {
    match v
    case JArr(xs) => Ok(xs)
    case JStr(s) => if s == [] then Ok([]) else Err("TypeError: string indices must be integers")
    case JObj(m) => if m == map[] then Ok([]) else Err("TypeError: list indices must be integers or slices, not str")
    case _ => Err("TypeError: object is not iterable")
  }

  /** The union of `f(x)` over `xs`, visited in order; the first failure is
      the result. */
  function UnionAll<T>(xs: seq<T>, f: T -> Result<set<string>>): Result<set<string>>
  {
    if xs == [] then Ok({})
    else match UnionAll(xs[..|xs| - 1], f)
      case Err(e) => Err(e)
      case Ok(s) =>
        match f(xs[|xs| - 1])
        case Err(e) => Err(e)
        case Ok(t) => Ok(s + t)
  }

  /** The union succeeds exactly when every part does, and then holds
      exactly what some part holds. */
  lemma {:induction false} UnionAllMeaning<T>(xs: seq<T>, f: T -> Result<set<string>>)
    ensures UnionAll(xs, f).Ok? <==> forall i :: 0 <= i < |xs| ==> f(xs[i]).Ok?
    ensures UnionAll(xs, f).Ok? ==>
      forall s :: s in UnionAll(xs, f).value <==> exists i :: 0 <= i < |xs| && s in f(xs[i]).value
    decreases |xs|
  {
    if xs != [] {
      var init := xs[..|xs| - 1];
      UnionAllMeaning(init, f);
      assert forall i :: 0 <= i < |init| ==> init[i] == xs[i];
      if UnionAll(xs, f).Ok? {
        forall s | s in UnionAll(xs, f).value ensures exists i :: 0 <= i < |xs| && s in f(xs[i]).value {
          if s !in f(xs[|xs| - 1]).value {
            var i :| 0 <= i < |init| && s in f(init[i]).value;
            assert s in f(xs[i]).value;
          }
        }
        forall s | exists i :: 0 <= i < |xs| && s in f(xs[i]).value ensures s in UnionAll(xs, f).value {
          var i :| 0 <= i < |xs| && s in f(xs[i]).value;
          if i < |init| {
            assert s in f(init[i]).value;
          }
        }
      }
    }
  }

  /** Once a prefix fails, the whole union fails with the same error. */
  lemma {:induction false} UnionAllErrStays<T>(xs: seq<T>, f: T -> Result<set<string>>, k: nat)
    requires 0 < k <= |xs| && UnionAll(xs[..k], f).Err?
    ensures UnionAll(xs, f) == UnionAll(xs[..k], f)
    decreases |xs| - k
  {
    if k < |xs| {
      assert xs[..k + 1][..k] == xs[..k];
      UnionAllErrStays(xs, f, k + 1);
    } else {
      assert xs[..k] == xs;
    }
  }

  /** `payload[payload[port_ref]['name']]`: the name a port reference leads to. */
  function NameOf(payload: Json, portRef: Json): Result<Json>
  {
    match Subscript(payload, portRef)
    case Err(e) => Err(e)
    case Ok(portObj) =>
      match Subscript(portObj, JStr("name"))
      case Err(e) => Err(e)
      case Ok(nameRef) => Subscript(payload, nameRef)
  }

  /** The walk below is stated for any slug function `slugOf`; the source's
      is `GenerateSlug`. */

  /** The slug of one port reference, as a set that leaves out the empty slug. */
  function PortSlugs(payload: Json, portRef: Json, slugOf: Json -> string): Result<set<string>>
  {
    match NameOf(payload, portRef)
    case Err(e) => Err(e)
    case Ok(name) =>
      var slug := slugOf(name);
      Ok(if slug != "" then {slug} else {})
  }

  /** The slugs of each port reference, as one function of the reference. */
  function PortsOf(payload: Json, slugOf: Json -> string): Json -> Result<set<string>>
  {
    (r: Json) => PortSlugs(payload, r, slugOf)
  }

  /** `payload[payload[province_ref]['ports']]`: the port references of one province. */
  function PortRefs(payload: Json, provinceRef: Json): Result<seq<Json>>
  {
    match Subscript(payload, provinceRef)
    case Err(e) => Err(e)
    case Ok(provinceObj) =>
      match Subscript(provinceObj, JStr("ports"))
      case Err(e) => Err(e)
      case Ok(portsKey) =>
        match Subscript(payload, portsKey)
        case Err(e) => Err(e)
        case Ok(ports) => RefsOf(ports)
  }

  /** The slugs of one province's ports. */
  function ProvinceSlugs(payload: Json, provinceRef: Json, slugOf: Json -> string): Result<set<string>>
  {
    match PortRefs(payload, provinceRef)
    case Err(e) => Err(e)
    case Ok(refs) => UnionAll(refs, PortsOf(payload, slugOf))
  }

  /** The slugs of each province reference, as one function of the reference. */
  function ProvincesOf(payload: Json, slugOf: Json -> string): Json -> Result<set<string>>
  {
    (p: Json) => ProvinceSlugs(payload, p, slugOf)
  }

  /** The province references at `payload[4]`. */
  function TopRefs(payload: Json): Result<seq<Json>>
  {
    match Subscript(payload, JInt(4))
    case Err(e) => Err(e)
    case Ok(top) => RefsOf(top)
  }

  /** The walk of the whole table, from the province references at `payload[4]`. */
  function Walk(payload: Json, slugOf: Json -> string): Result<set<string>>
  {
    match TopRefs(payload)
    case Err(e) => Err(e)
    case Ok(provinces) => UnionAll(provinces, ProvincesOf(payload, slugOf))
  }

  /** The walk `parse_bmkg_payload` does. */
  function WalkSpec(payload: Json): Result<set<string>>
  {
    Walk(payload, GenerateSlug)
  }

  /** What `parse_bmkg_payload` returns, as a set: any IndexError, KeyError
      or TypeError during the walk discards what was found and gives none. */
  function ParseSpec(payload: Json): set<string>
  {
    match WalkSpec(payload)
    case Err(_) => {}
    case Ok(s) => s
  }

  /** Port `j` of province `i` names a harbour whose slug is `s`, not empty. */
  predicate Names(payload: Json, provinces: seq<Json>, s: string, i: int, j: int, name: Json, slugOf: Json -> string)
  {
    && 0 <= i < |provinces| && PortRefs(payload, provinces[i]).Ok?
    && 0 <= j < |PortRefs(payload, provinces[i]).value|
    && NameOf(payload, PortRefs(payload, provinces[i]).value[j]) == Ok(name)
    && s != "" && slugOf(name) == s
  }

  /** Every slug found is that of some harbour the walk reaches ... */
  lemma WalkSound(payload: Json, s: string, slugOf: Json -> string)
    requires Walk(payload, slugOf).Ok? && s in Walk(payload, slugOf).value
    ensures TopRefs(payload).Ok?
    ensures exists i, j, name :: Names(payload, TopRefs(payload).value, s, i, j, name, slugOf)
  {
    var provinces := TopRefs(payload).value;
    var fp := ProvincesOf(payload, slugOf);
    UnionAllMeaning(provinces, fp);
    var i :| 0 <= i < |provinces| && s in fp(provinces[i]).value;
    var j, name := ProvinceSound(payload, provinces[i], s, slugOf);
    assert Names(payload, provinces, s, i, j, name, slugOf);
  }

  /** A slug of one province comes from one of its ports. */
  lemma ProvinceSound(payload: Json, provinceRef: Json, s: string, slugOf: Json -> string) returns (j: nat, name: Json)
    requires ProvinceSlugs(payload, provinceRef, slugOf).Ok? && s in ProvinceSlugs(payload, provinceRef, slugOf).value
    ensures PortRefs(payload, provinceRef).Ok? && j < |PortRefs(payload, provinceRef).value|
    ensures NameOf(payload, PortRefs(payload, provinceRef).value[j]) == Ok(name) && s != "" && slugOf(name) == s
  {
    var refs := PortRefs(payload, provinceRef).value;
    var fr := PortsOf(payload, slugOf);
    UnionAllMeaning(refs, fr);
    j :| 0 <= j < |refs| && s in fr(refs[j]).value;
    name := NameOf(payload, refs[j]).value;
  }

  /** ... and every harbour the walk reaches with a non-empty slug is found. */
  lemma WalkComplete(payload: Json, s: string, i: int, j: int, name: Json, slugOf: Json -> string)
    requires Walk(payload, slugOf).Ok? && TopRefs(payload).Ok?
    requires Names(payload, TopRefs(payload).value, s, i, j, name, slugOf)
    ensures s in Walk(payload, slugOf).value
  {
    var provinces := TopRefs(payload).value;
    var fp := ProvincesOf(payload, slugOf);
    UnionAllMeaning(provinces, fp);
    var refs := PortRefs(payload, provinces[i]).value;
    var fr := PortsOf(payload, slugOf);
    UnionAllMeaning(refs, fr);
    assert s in fr(refs[j]).value;
    assert s in fp(provinces[i]).value;
  }

  /** The slugs `parse_bmkg_payload` finds are exactly the non-empty slugs
      of the harbour names the walk reaches, when it completes. */
  lemma ParsedSlugsFound(payload: Json, s: string)
    requires WalkSpec(payload).Ok?
    ensures TopRefs(payload).Ok?
    ensures s in ParseSpec(payload) <==> exists i, j, name :: Names(payload, TopRefs(payload).value, s, i, j, name, GenerateSlug)
  {
    if s in ParseSpec(payload) {
      WalkSound(payload, s, GenerateSlug);
    }
    if exists i, j, name :: Names(payload, TopRefs(payload).value, s, i, j, name, GenerateSlug) {
      var i, j, name :| Names(payload, TopRefs(payload).value, s, i, j, name, GenerateSlug);
      WalkComplete(payload, s, i, j, name, GenerateSlug);
    }
  }

  /** No slug is empty and every slug is well formed. */
  lemma ParsedSlugsWellFormed(payload: Json, s: string)
    requires s in ParseSpec(payload)
    ensures s != "" && WellFormedSlug(s)
  {
    WalkSound(payload, s, GenerateSlug);
    var i, j, name :| Names(payload, TopRefs(payload).value, s, i, j, name, GenerateSlug);
    GenerateSlugWellFormed(name);
  }

  /** `parse_bmkg_payload`: the slugs found, as a list without duplicates. */
  method ParseBmkgPayload(payload: Json) returns (slugs: seq<string>)
    ensures forall s :: s in slugs <==> s in ParseSpec(payload)
    ensures forall i, j :: 0 <= i < j < |slugs| ==> slugs[i] != slugs[j]
    ensures WalkSpec(payload).Err? ==> slugs == []
  {
    var walk := WalkPayload(payload);
    if walk.Err? {
      return [];
    }
    slugs := ListOfSet(walk.value);
  }

  /** The nested loops of `parse_bmkg_payload`, adding to `all_slugs`. */
  method WalkPayload(payload: Json) returns (r: Result<set<string>>)
    ensures r == WalkSpec(payload)
  {
    var top := Subscript(payload, JInt(4));
    if top.Err? {
      return Err(top.error);
    }
    var provinces := RefsOf(top.value);
    if provinces.Err? {
      return Err(provinces.error);
    }
    var refs := provinces.value;
    ghost var fp := ProvincesOf(payload, GenerateSlug);
    assert TopRefs(payload) == Ok(refs);
    var allSlugs: set<string> := {};
    for i := 0 to |refs|
      invariant UnionAll(refs[..i], fp) == Ok(allSlugs)
    {
      var found := WalkProvince(payload, refs[i], allSlugs);
      assert fp(refs[i]) == ProvinceSlugs(payload, refs[i], GenerateSlug);
      if found.Err? {
        assert refs[..i + 1][..i] == refs[..i];
        UnionAllErrStays(refs, fp, i + 1);
        return Err(found.error);
      }
      UnionStep(refs, fp, i, fp(refs[i]).value);
      allSlugs := found.value;
    }
    assert refs[..|refs|] == refs;
    return Ok(allSlugs);
  }

  /** The inner loop for one province: its ports' slugs are added to `allSlugs`. */
  method WalkProvince(payload: Json, provinceRef: Json, allSlugs: set<string>) returns (r: Result<set<string>>)
    ensures var spec := ProvinceSlugs(payload, provinceRef, GenerateSlug);
      r == if spec.Ok? then Ok(allSlugs + spec.value) else Err(spec.error)
  {
    var provinceObj := Subscript(payload, provinceRef);
    if provinceObj.Err? {
      return Err(provinceObj.error);
    }
    var portsKey := Subscript(provinceObj.value, JStr("ports"));
    if portsKey.Err? {
      return Err(portsKey.error);
    }
    var ports := Subscript(payload, portsKey.value);
    if ports.Err? {
      return Err(ports.error);
    }
    var portRefs := RefsOf(ports.value);
    if portRefs.Err? {
      return Err(portRefs.error);
    }
    assert PortRefs(payload, provinceRef) == Ok(portRefs.value);
    r := WalkPorts(payload, portRefs.value, allSlugs, GenerateSlug);
  }

  /** The loop over one province's port references, slugging each name with `slugOf`. */
  method WalkPorts(payload: Json, refs: seq<Json>, allSlugs: set<string>, slugOf: Json -> string) returns (r: Result<set<string>>)
    ensures var spec := UnionAll(refs, PortsOf(payload, slugOf));
      r == if spec.Ok? then Ok(allSlugs + spec.value) else Err(spec.error)
  {
    ghost var fr := PortsOf(payload, slugOf);
    var slugs := allSlugs;
    for j := 0 to |refs|
      invariant UnionAll(refs[..j], fr).Ok? && slugs == allSlugs + UnionAll(refs[..j], fr).value
    {
      var name := PortName(payload, refs[j]);
      if name.Err? {
        PortsFail(payload, refs, j, slugOf);
        return Err(name.error);
      }
      var slug := slugOf(name.value);
      PortsFound(payload, refs, j, name.value, slugOf);
      if slug != "" {
        slugs := slugs + {slug};
      }
    }
    assert refs[..|refs|] == refs;
    return Ok(slugs);
  }

  /** A port reference whose name cannot be read ends the walk with its error ... */
  lemma PortsFail(payload: Json, refs: seq<Json>, j: nat, slugOf: Json -> string)
    requires j < |refs| && UnionAll(refs[..j], PortsOf(payload, slugOf)).Ok? && NameOf(payload, refs[j]).Err?
    ensures UnionAll(refs, PortsOf(payload, slugOf)) == Err(NameOf(payload, refs[j]).error)
  {
    var fr := PortsOf(payload, slugOf);
    assert refs[..j + 1][..j] == refs[..j];
    assert fr(refs[j]) == Err(NameOf(payload, refs[j]).error);
    UnionAllErrStays(refs, fr, j + 1);
  }

  /** ... and one that names a harbour adds its non-empty slug. */
  lemma PortsFound(payload: Json, refs: seq<Json>, j: nat, name: Json, slugOf: Json -> string)
    requires j < |refs| && UnionAll(refs[..j], PortsOf(payload, slugOf)).Ok? && NameOf(payload, refs[j]) == Ok(name)
    ensures UnionAll(refs[..j + 1], PortsOf(payload, slugOf)) == Ok(UnionAll(refs[..j], PortsOf(payload, slugOf)).value
      + (if slugOf(name) != "" then {slugOf(name)} else {}))
  {
    var fr := PortsOf(payload, slugOf);
    assert fr(refs[j]) == Ok(if slugOf(name) != "" then {slugOf(name)} else {});
    UnionStep(refs, fr, j, fr(refs[j]).value);
  }

  /** One more part that succeeds adds its elements to the union. */
  lemma UnionStep<T>(xs: seq<T>, f: T -> Result<set<string>>, j: nat, t: set<string>)
    requires j < |xs| && UnionAll(xs[..j], f).Ok? && f(xs[j]) == Ok(t)
    ensures UnionAll(xs[..j + 1], f) == Ok(UnionAll(xs[..j], f).value + t)
  {
    assert xs[..j + 1][..j] == xs[..j];
  }

  /** `payload[payload[port_ref]['name']]`, statement by statement. */
  method PortName(payload: Json, portRef: Json) returns (r: Result<Json>)
    ensures r == NameOf(payload, portRef)
  {
    var portObj := Subscript(payload, portRef);
    if portObj.Err? {
      return Err(portObj.error);
    }
    var nameRef := Subscript(portObj.value, JStr("name"));
    if nameRef.Err? {
      return Err(nameRef.error);
    }
    r := Subscript(payload, nameRef.value);
  }

  /** `list(all_slugs)`: the set's elements, each once, in some order. */
  method ListOfSet(s: set<string>) returns (xs: seq<string>)
    ensures forall x :: x in xs <==> x in s
    ensures forall i, j :: 0 <= i < j < |xs| ==> xs[i] != xs[j]
  {
    xs := [];
    var rest := s;
    while rest != {}
      invariant rest <= s
      invariant forall x :: x in xs <==> x in s && x !in rest
      invariant forall i, j :: 0 <= i < j < |xs| ==> xs[i] != xs[j]
      decreases rest
    {
      var x :| x in rest;
      xs := xs + [x];
      rest := rest - {x};
    }
  }

  // ------------------------------------------------------------ fetch_weather_for_slug

  /** What `requests.get` does: answer with a status and a body that
      `response.json()` decodes or refuses, or raise a request error. */
  datatype SlugReply = Got(status: int, body: Result<Json>) | Raised(message: string)

  /** An attempt fails when the request raises, `raise_for_status` refuses a
      4xx or 5xx status, or the body is no JSON; these are the errors caught. */
  predicate Fails(reply: SlugReply)
  {
    reply.Raised? || 400 <= reply.status < 600 || reply.body.Err?
  }

  /** The harbour name and the forecast list of one answer. */
  datatype Forecast = Forecast(harbor: Json, forecast: Json)

  /** `slug.replace('-', ' ').title()`: the harbour name used when the answer has none. */
  function DefaultHarbor(slug: string): string
  {
    Title(ReplaceChar(slug, '-', ' '))
  }

  /** The default name gives the slug back: lower-cased with its spaces
      turned into hyphens again. */
  lemma DefaultHarborRoundTrip(slug: string)
    requires WellFormedSlug(slug)
    ensures ReplaceChar(Lower(DefaultHarbor(slug)), ' ', '-') == slug
  {
    var spaced := ReplaceChar(slug, '-', ' ');
    var d := Title(spaced);
    var l := Lower(d);
    var back := ReplaceChar(l, ' ', '-');
    TitleLower(spaced);
    forall i | 0 <= i < |slug| ensures back[i] == slug[i] {
      assert l[i] == Lower(spaced)[i] == LowerChar(spaced[i]);
      if slug[i] == '-' {
        assert spaced[i] == ' ';
      } else {
        assert spaced[i] == slug[i] && LowerChar(slug[i]) == slug[i];
      }
    }
  }

  /** The value `fetch_weather_for_slug` returns for a decoded body: an
      answer that is no object makes `data.get` raise AttributeError, which
      is not caught. */
  function Answer(slug: string, data: Json): (r: Result<Forecast>)
    ensures r.Ok? <==> data.JObj?
    ensures r.Ok? && "pelabuhan" !in data.fields ==> r.value.harbor == JStr(DefaultHarbor(slug))
    ensures r.Ok? && "prakiraan" !in data.fields ==> r.value.forecast == JArr([])
    ensures r.Ok? && "pelabuhan" in data.fields ==> r.value.harbor == data.fields["pelabuhan"]
    ensures r.Ok? && "prakiraan" in data.fields ==> r.value.forecast == data.fields["prakiraan"]
  {
    match data
    case JObj(m) => Ok(Forecast(GetOr(m, "pelabuhan", JStr(DefaultHarbor(slug))), GetOr(m, "prakiraan", JArr([]))))
    case _ => Err("AttributeError: object has no attribute 'get'")
  }

  /** `fetch_weather_for_slug`: attempt `a` is answered by `replies(a)`.
      Attempts stop at the first one that does not fail; `delay` is slept
      after each failed attempt but the last. `(None, None)` is `Ok(None)`. */
  method FetchWeatherForSlug(slug: string, replies: nat -> SlugReply, retries: nat, delay: nat)
      returns (r: Result<Option<Forecast>>, requests: nat, sleeps: seq<nat>)
    ensures 1 <= requests <= retries + 1
    ensures forall a :: 0 <= a < requests - 1 ==> Fails(replies(a))
    ensures sleeps == seq(requests - 1, _ => delay)
    ensures !Fails(replies(requests - 1)) ==>
      r == match Answer(slug, replies(requests - 1).body.value)
           case Ok(f) => Ok(Some(f))
           case Err(e) => Err(e)
    ensures Fails(replies(requests - 1)) ==> requests == retries + 1 && r == Ok(None)
    ensures r == Ok(None) <==> forall a :: 0 <= a <= retries ==> Fails(replies(a))
  {
    sleeps := [];
    var attempt := 0;
    while true
      invariant 0 <= attempt <= retries
      invariant forall a :: 0 <= a < attempt ==> Fails(replies(a))
      invariant sleeps == seq(attempt, _ => delay)
      decreases retries - attempt
    {
      var reply := replies(attempt);
      if !Fails(reply) {
        var data := Answer(slug, reply.body.value);
        requests := attempt + 1;
        if data.Err? {
          return Err(data.error), requests, sleeps;
        }
        return Ok(Some(data.value)), requests, sleeps;
      }
      if attempt < retries {
        sleeps := sleeps + [delay];
        attempt := attempt + 1;
      } else {
        return Ok(None), attempt + 1, sleeps;
      }
    }
  }
}
