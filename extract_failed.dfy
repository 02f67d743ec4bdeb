/** `backend/collectors/pelabuhan/extract_failed_data.py`: keep the port
    results whose status is `failed`, project each onto five fields with
    defaults, and tally the error messages into a breakdown sorted by count. */
module ExtractFailed {
  import opened Common
  import opened Json

  /** `port['status'] == 'failed'` for one entry of the decoded list: a
      missing key raises KeyError, an entry that is no dict TypeError. */
  function IsFailed(port: Json): Result<bool>
  {
    if !port.JObj? then Err("TypeError: indices must be integers")
    else if "status" !in port.fields then Err("KeyError: 'status'")
    else Ok(port.fields["status"] == JStr("failed"))
  }

  /** It is the source's subscript: it fails exactly when `port['status']`
      raises, and compares what that gives. */
  lemma IsFailedSubscript(port: Json)
    ensures IsFailed(port).Ok? <==> Subscript(port, JStr("status")).Ok?
    ensures IsFailed(port).Ok? ==> IsFailed(port).value == (Subscript(port, JStr("status")).value == JStr("failed"))
  {
  }

  /** The record appended to `failed_data`, each missing field defaulted. */
  function FailedRecord(port: Doc): Doc
  {
    map[
      "port_name" := GetOr(port, "port_name", JStr("Unknown")),
      "slug" := GetOr(port, "slug", JStr("Unknown")),
      "coordinates" := GetOr(port, "coordinates", JObj(map[])),
      "error_message" := GetOr(port, "error_message", JStr("No error message")),
      "timestamp" := GetOr(port, "timestamp", JStr("Unknown"))]
  }

  /** A record has exactly the five fields, each the entry's own unless
      the entry lacks it. */
  lemma FailedRecordFields(port: Doc)
    ensures FailedRecord(port).Keys == {"port_name", "slug", "coordinates", "error_message", "timestamp"}
    ensures FailedRecord(port)["error_message"] == GetOr(port, "error_message", JStr("No error message"))
    ensures forall k :: k in FailedRecord(port) && k in port ==> FailedRecord(port)[k] == port[k]
  {
  }

  /** The filter loop over the first entries; the first entry whose status
      cannot be read aborts the extraction. */
  function FailedData(ports: seq<Json>): Result<seq<Doc>>
  {
    if ports == [] then Ok([])
    else match FailedData(ports[..|ports| - 1])
      case Err(e) => Err(e)
      case Ok(failed) =>
        var port := ports[|ports| - 1];
        match IsFailed(port)
        case Err(e) => Err(e)
        case Ok(isFailed) => Ok(if isFailed then failed + [FailedRecord(port.fields)] else failed)
  }

  /** The position of each kept entry among the entries. */
  predicate KeptAt(ports: seq<Json>, i: int)
  {
    0 <= i < |ports| && IsFailed(ports[i]) == Ok(true)
  }

  /** The entries with status `failed`, as indices in input order. */
  function FailedIndices(ports: seq<Json>): (r: seq<nat>)
    ensures forall k :: 0 <= k < |r| ==> KeptAt(ports, r[k])
    ensures forall k, l :: 0 <= k < l < |r| ==> r[k] < r[l]
    ensures forall k :: 0 <= k < |r| ==> r[k] < |ports|
  {
    if ports == [] then []
    else
      var n := |ports| - 1;
      var init := FailedIndices(ports[..n]);
      assert forall k :: 0 <= k < |init| ==> ports[..n][init[k]] == ports[init[k]];
      init + (if KeptAt(ports, n) then [n] else [])
  }

  /** The extraction fails exactly when some status cannot be read. */
  lemma {:induction false} FailedDataErrors(ports: seq<Json>)
    ensures FailedData(ports).Err? <==> exists i :: 0 <= i < |ports| && IsFailed(ports[i]).Err?
    decreases |ports|
  {
    if ports != [] {
      var n := |ports| - 1;
      FailedDataErrors(ports[..n]);
      assert forall i :: 0 <= i < n ==> ports[..n][i] == ports[i];
    }
  }

  /** One step of the filter loop: a kept entry is appended, ... */
  lemma FailedStepKept(ports: seq<Json>)
    requires ports != [] && FailedData(ports).Ok? && KeptAt(ports, |ports| - 1)
    ensures var n := |ports| - 1;
      && FailedData(ports[..n]).Ok? && ports[n].JObj?
      && FailedData(ports).value == FailedData(ports[..n]).value + [FailedRecord(ports[n].fields)]
  {
  }

  /** ... any other leaves the records as they were. */
  lemma FailedStepSkipped(ports: seq<Json>)
    requires ports != [] && FailedData(ports).Ok? && !KeptAt(ports, |ports| - 1)
    ensures var n := |ports| - 1;
      FailedData(ports[..n]).Ok? && FailedData(ports).value == FailedData(ports[..n]).value
  {
  }

  /** Otherwise it keeps exactly the failed entries, in input order, each
      projected with its defaults. */
  lemma {:induction false} FailedDataKept(ports: seq<Json>)
    requires FailedData(ports).Ok?
    ensures |FailedData(ports).value| == |FailedIndices(ports)|
    ensures forall k :: 0 <= k < |FailedIndices(ports)| ==>
      ports[FailedIndices(ports)[k]].JObj? && FailedData(ports).value[k] == FailedRecord(ports[FailedIndices(ports)[k]].fields)
    decreases |ports|
  {
    if ports != [] {
      var n := |ports| - 1;
      var init := ports[..n];
      if KeptAt(ports, n) { FailedStepKept(ports); } else { FailedStepSkipped(ports); }
      FailedDataKept(init);
      var idx0 := FailedIndices(init);
      var prev := FailedData(init).value;
      var idx := FailedIndices(ports);
      var failed := FailedData(ports).value;
      assert idx == idx0 + (if KeptAt(ports, n) then [n] else []);
      forall k | 0 <= k < |idx|
        ensures ports[idx[k]].JObj? && failed[k] == FailedRecord(ports[idx[k]].fields)
      {
        if k < |idx0| {
          assert idx[k] == idx0[k] && init[idx0[k]] == ports[idx0[k]] && failed[k] == prev[k];
        }
      }
    }
  }

  /** Both halves together. */
  lemma FailedDataMeaning(ports: seq<Json>)
    ensures FailedData(ports).Err? <==> exists i :: 0 <= i < |ports| && IsFailed(ports[i]).Err?
    ensures FailedData(ports).Ok? ==>
      var failed := FailedData(ports).value;
      var idx := FailedIndices(ports);
      |failed| == |idx| && forall k :: 0 <= k < |idx| ==> ports[idx[k]].JObj? && failed[k] == FailedRecord(ports[idx[k]].fields)
  {
    FailedDataErrors(ports);
    if FailedData(ports).Ok? {
      FailedDataKept(ports);
    }
  }

  /** Every failed entry is kept: each position with status `failed` is among the indices. */
  lemma {:induction false} FailedIndicesComplete(ports: seq<Json>, i: nat)
    requires KeptAt(ports, i)
    ensures i in FailedIndices(ports)
    decreases |ports|
  {
    var n := |ports| - 1;
    if i < n {
      assert ports[..n][i] == ports[i];
      FailedIndicesComplete(ports[..n], i);
    }
  }

  /** The first loop of `extract_failed_data`. */
  method FilterFailed(ports: seq<Json>) returns (r: Result<seq<Doc>>)
    ensures r == FailedData(ports)
  {
    var failed: seq<Doc> := [];
    for i := 0 to |ports|
      invariant FailedData(ports[..i]) == Ok(failed)
    {
      assert ports[..i + 1][..i] == ports[..i];
      var port := ports[i];
      IsFailedSubscript(port);
      var status := Subscript(port, JStr("status"));
      if status.Err? {
        FailedDataErrStays(ports, i + 1);
        return Err(IsFailed(port).error);
      }
      if status.value == JStr("failed") {
        var p := port.fields;
        failed := failed + [map[
          "port_name" := GetOr(p, "port_name", JStr("Unknown")),
          "slug" := GetOr(p, "slug", JStr("Unknown")),
          "coordinates" := GetOr(p, "coordinates", JObj(map[])),
          "error_message" := GetOr(p, "error_message", JStr("No error message")),
          "timestamp" := GetOr(p, "timestamp", JStr("Unknown"))]];
      }
    }
    assert ports[..|ports|] == ports;
    return Ok(failed);
  }

  lemma {:induction false} FailedDataErrStays(ports: seq<Json>, k: nat)
    requires 0 < k <= |ports| && FailedData(ports[..k]).Err?
    ensures FailedData(ports) == FailedData(ports[..k])
    decreases |ports| - k
  {
    if k < |ports| {
      assert ports[..k + 1][..k] == ports[..k];
      FailedDataErrStays(ports, k + 1);
    } else {
      assert ports[..k] == ports;
    }
  }

  // ------------------------------------------------------------ error types

  /** `error_types`: a dict from message to count, as its items in insertion order. */
  type Tally = seq<(Json, nat)>

  /** Where `key` sits among the items, or -1. */
  function IndexOfKey(t: Tally, key: Json): (r: int)
    ensures -1 <= r < |t|
    ensures r >= 0 ==> t[r].0 == key
    ensures r == -1 <==> forall i :: 0 <= i < |t| ==> t[i].0 != key
  {
    if t == [] then -1
    else if t[|t| - 1].0 == key then |t| - 1
    else IndexOfKey(t[..|t| - 1], key)
  }

  /** `error_types[k] = error_types.get(k, 0) + 1`. */
  function Bump(t: Tally, key: Json): Tally
  {
    var i := IndexOfKey(t, key);
    if i >= 0 then t[i := (key, t[i].1 + 1)] else t + [(key, 1)]
  }

  /** The tally of the messages, or the TypeError a list or dict message raises. */
  function TallyOf(msgs: seq<Json>): Result<Tally>
  {
    if msgs == [] then Ok([])
    else match TallyOf(msgs[..|msgs| - 1])
      case Err(e) => Err(e)
      case Ok(t) =>
        match HashKey(msgs[|msgs| - 1])
        case None => Err("TypeError: unhashable type")
        case Some(k) => Ok(Bump(t, k))
  }

  /** How many of the messages hash to `key`. */
  function Occurrences(msgs: seq<Json>, key: Json): nat
  {
    if msgs == [] then 0
    else Occurrences(msgs[..|msgs| - 1], key) + (if HashKey(msgs[|msgs| - 1]) == Some(key) then 1 else 0)
  }

  function SumCounts(t: Tally): nat
  {
    if t == [] then 0 else SumCounts(t[..|t| - 1]) + t[|t| - 1].1
  }

  predicate DistinctKeys(t: Tally)
  {
    forall i, j :: 0 <= i < j < |t| ==> t[i].0 != t[j].0
  }

  /** Raising one count, or adding a key with count 1, adds one to the sum. */
  lemma {:induction false} BumpSum(t: Tally, key: Json)
    ensures SumCounts(Bump(t, key)) == SumCounts(t) + 1
    decreases |t|
  {
    var i := IndexOfKey(t, key);
    if i >= 0 {
      UpdateSum(t, i, (key, t[i].1 + 1));
    } else {
      assert (t + [(key, 1)])[..|t|] == t;
    }
  }

  lemma {:induction false} UpdateSum(t: Tally, i: nat, x: (Json, nat))
    requires i < |t|
    ensures SumCounts(t[i := x]) == SumCounts(t) - t[i].1 + x.1
    decreases |t|
  {
    var n := |t| - 1;
    if i < n {
      assert t[i := x][..n] == t[..n][i := x];
      UpdateSum(t[..n], i, x);
    } else {
      assert t[i := x][..n] == t[..n];
    }
  }

  /** The count a tally holds for `key`, 0 when it is absent. */
  function KeyCount(t: Tally, key: Json): nat
  {
    var i := IndexOfKey(t, key);
    if i >= 0 then t[i].1 else 0
  }

  /** With distinct keys an item's own key finds it. */
  lemma IndexOfOwnKey(t: Tally, i: nat)
    requires DistinctKeys(t) && i < |t|
    ensures IndexOfKey(t, t[i].0) == i
  {
  }

  /** Bumping changes only the bumped key's item, or appends it. */
  lemma BumpShape(t: Tally, k: Json)
    ensures var i := IndexOfKey(t, k); var t' := Bump(t, k);
      && |t'| == |t| + (if i >= 0 then 0 else 1)
      && (forall j :: 0 <= j < |t| && j != i ==> t'[j] == t[j])
      && (i >= 0 ==> t'[i] == (k, t[i].1 + 1))
      && (i < 0 ==> t'[|t|] == (k, 1))
  {
  }

  lemma BumpDistinct(t: Tally, k: Json)
    requires DistinctKeys(t)
    ensures DistinctKeys(Bump(t, k))
  {
    BumpShape(t, k);
  }

  /** The bumped key's count goes up by one. */
  lemma BumpCountSame(t: Tally, k: Json)
    requires DistinctKeys(t)
    ensures KeyCount(Bump(t, k), k) == KeyCount(t, k) + 1
  {
    var i := IndexOfKey(t, k);
    BumpShape(t, k);
    BumpDistinct(t, k);
    IndexOfOwnKey(Bump(t, k), if i >= 0 then i else |t|);
  }

  /** Every other key's count stays. */
  lemma BumpCountOther(t: Tally, k: Json, key: Json)
    requires DistinctKeys(t) && key != k
    ensures KeyCount(Bump(t, k), key) == KeyCount(t, key)
  {
    var t' := Bump(t, k);
    BumpShape(t, k);
    BumpDistinct(t, k);
    var j := IndexOfKey(t, key);
    if j >= 0 {
      IndexOfOwnKey(t', j);
    } else {
      assert forall m :: 0 <= m < |t'| ==> t'[m].0 != key;
    }
  }

  /** Bumping a key keeps the keys distinct and adds one to that key's count. */
  lemma BumpCount(t: Tally, k: Json, key: Json)
    requires DistinctKeys(t)
    ensures DistinctKeys(Bump(t, k))
    ensures KeyCount(Bump(t, k), key) == KeyCount(t, key) + (if key == k then 1 else 0)
  {
    BumpDistinct(t, k);
    if key == k {
      BumpCountSame(t, k);
    } else {
      BumpCountOther(t, k, key);
    }
  }

  /** One step of the tally: the last message's key is bumped. */
  lemma TallyStep(msgs: seq<Json>)
    requires msgs != [] && TallyOf(msgs).Ok?
    ensures TallyOf(msgs[..|msgs| - 1]).Ok? && HashKey(msgs[|msgs| - 1]).Some?
    ensures TallyOf(msgs).value == Bump(TallyOf(msgs[..|msgs| - 1]).value, HashKey(msgs[|msgs| - 1]).value)
  {
  }

  /** The tally has distinct keys, each count at least 1, and each key's
      count is the number of messages with that key. */
  lemma {:induction false} TallyCounts(msgs: seq<Json>)
    requires TallyOf(msgs).Ok?
    ensures DistinctKeys(TallyOf(msgs).value)
    ensures forall key :: KeyCount(TallyOf(msgs).value, key) == Occurrences(msgs, key)
    ensures forall i :: 0 <= i < |TallyOf(msgs).value| ==> TallyOf(msgs).value[i].1 >= 1
    decreases |msgs|
  {
    if msgs != [] {
      var n := |msgs| - 1;
      TallyStep(msgs);
      TallyCounts(msgs[..n]);
      var t := TallyOf(msgs[..n]).value;
      var k := HashKey(msgs[n]).value;
      forall key ensures KeyCount(Bump(t, k), key) == Occurrences(msgs, key) {
        BumpCount(t, k, key);
      }
      BumpCount(t, k, k);
    }
  }

  /** The counts of the tally add up to the number of messages. */
  lemma {:induction false} TallySum(msgs: seq<Json>)
    requires TallyOf(msgs).Ok?
    ensures SumCounts(TallyOf(msgs).value) == |msgs|
    decreases |msgs|
  {
    if msgs != [] {
      var n := |msgs| - 1;
      TallyStep(msgs);
      TallySum(msgs[..n]);
      var t := TallyOf(msgs[..n]).value;
      var k := HashKey(msgs[n]).value;
      BumpSum(t, k);
      assert SumCounts(Bump(t, k)) == |msgs[..n]| + 1;
    }
  }

  /** Item by item: the tally lists each message kind once, with the number
      of messages of that kind, and a kind appears exactly when some message has it. */
  lemma TallyMeaning(msgs: seq<Json>)
    requires TallyOf(msgs).Ok?
    ensures var t := TallyOf(msgs).value;
      && DistinctKeys(t)
      && (forall i :: 0 <= i < |t| ==> 1 <= t[i].1 == Occurrences(msgs, t[i].0))
      && SumCounts(t) == |msgs|
      && forall key :: Occurrences(msgs, key) > 0 <==> IndexOfKey(t, key) >= 0
  {
    var t := TallyOf(msgs).value;
    TallyCounts(msgs);
    TallySum(msgs);
    forall i | 0 <= i < |t| ensures t[i].1 == Occurrences(msgs, t[i].0) {
      IndexOfOwnKey(t, i);
      assert KeyCount(t, t[i].0) == t[i].1;
    }
  }

  /** The second loop of `extract_failed_data`, over the failed records. */
  method TallyErrors(failed: seq<Doc>) returns (r: Result<Tally>)
    requires forall i :: 0 <= i < |failed| ==> "error_message" in failed[i]
    ensures r == TallyOf(Messages(failed))
  {
    ghost var msgs := Messages(failed);
    var errorTypes: Tally := [];
    for i := 0 to |failed|
      invariant TallyOf(msgs[..i]) == Ok(errorTypes)
    {
      assert msgs[..i + 1][..i] == msgs[..i];
      var errorMsg := failed[i]["error_message"];
      var key := HashKey(errorMsg);
      if key.None? {
        TallyErrStays(msgs, i + 1);
        return Err("TypeError: unhashable type");
      }
      var j := IndexOfKey(errorTypes, key.value);
      if j >= 0 {
        errorTypes := errorTypes[j := (key.value, errorTypes[j].1 + 1)];
      } else {
        errorTypes := errorTypes + [(key.value, 1)];
      }
    }
    assert msgs[..|msgs|] == msgs;
    return Ok(errorTypes);
  }

  /** The `error_message` of each failed record. */
  function Messages(failed: seq<Doc>): (r: seq<Json>)
    ensures |r| == |failed| && forall i :: 0 <= i < |failed| ==> r[i] == Get(failed[i], "error_message")
  {
    seq(|failed|, i requires 0 <= i < |failed| => Get(failed[i], "error_message"))
  }

  lemma {:induction false} TallyErrStays(msgs: seq<Json>, k: nat)
    requires 0 < k <= |msgs| && TallyOf(msgs[..k]).Err?
    ensures TallyOf(msgs) == TallyOf(msgs[..k])
    decreases |msgs| - k
  {
    if k < |msgs| {
      assert msgs[..k + 1][..k] == msgs[..k];
      TallyErrStays(msgs, k + 1);
    } else {
      assert msgs[..k] == msgs;
    }
  }

  // ------------------------------------------------------------ the breakdown

  /** `x` placed after every item whose count is at least its own. */
  function Insert(x: (Json, nat), s: Tally): (r: Tally)
    ensures multiset(r) == multiset(s) + multiset{x}
    ensures |r| == |s| + 1
  {
    if s == [] then [x]
    else if s[0].1 >= x.1 then
      assert s == [s[0]] + s[1..];
      [s[0]] + Insert(x, s[1..])
    else [x] + s
  }

  /** `sorted(error_types.items(), key=count, reverse=True)`: a stable sort
      on descending counts. */
  function SortByCount(t: Tally): (r: Tally)
    ensures multiset(r) == multiset(t)
  {
    if t == [] then []
    else
      assert t == t[..|t| - 1] + [t[|t| - 1]];
      Insert(t[|t| - 1], SortByCount(t[..|t| - 1]))
  }

  predicate NonIncreasing(s: Tally)
  {
    forall i, j :: 0 <= i < j < |s| ==> s[i].1 >= s[j].1
  }

  /** A bound on every count survives an insertion that respects it. */
  lemma {:induction false} InsertBelow(x: (Json, nat), s: Tally, m: nat)
    requires x.1 <= m && forall i :: 0 <= i < |s| ==> s[i].1 <= m
    ensures forall i :: 0 <= i < |Insert(x, s)| ==> Insert(x, s)[i].1 <= m
    decreases |s|
  {
    if s != [] && s[0].1 >= x.1 {
      InsertBelow(x, s[1..], m);
    }
  }

  lemma {:induction false} InsertSorted(x: (Json, nat), s: Tally)
    requires NonIncreasing(s)
    ensures NonIncreasing(Insert(x, s))
    decreases |s|
  {
    if s != [] && s[0].1 >= x.1 {
      var t := s[1..];
      assert NonIncreasing(t);
      InsertSorted(x, t);
      InsertBelow(x, t, s[0].1);
      var r := Insert(x, t);
      assert Insert(x, s) == [s[0]] + r;
    }
  }

  /** The breakdown lists the message kinds by non-increasing count, and is
      a reordering of the tally. */
  lemma {:induction false} SortByCountSorted(t: Tally)
    ensures NonIncreasing(SortByCount(t))
    ensures multiset(SortByCount(t)) == multiset(t) && |SortByCount(t)| == |t|
    decreases |t|
  {
    if t != [] {
      SortByCountSorted(t[..|t| - 1]);
      InsertSorted(t[|t| - 1], SortByCount(t[..|t| - 1]));
    }
  }

  // ------------------------------------------------------------ the whole extraction

  /** What one run computes: the failed records written out, and the
      breakdown, or the error raised while tallying after the file was written. */
  datatype Extracted = Extracted(failed: seq<Doc>, breakdown: Result<Tally>)

  function ExtractSpec(ports: seq<Json>): Result<Extracted>
  {
    match FailedData(ports)
    case Err(e) => Err(e)
    case Ok(failed) =>
      match TallyOf(Messages(failed))
      case Err(e) => Ok(Extracted(failed, Err(e)))
      case Ok(t) => Ok(Extracted(failed, Ok(SortByCount(t))))
  }

  /** Every failed record carries an error message, defaulted when missing. */
  lemma FailedProjected(ports: seq<Json>)
    requires FailedData(ports).Ok?
    ensures forall i :: 0 <= i < |FailedData(ports).value| ==> "error_message" in FailedData(ports).value[i]
  {
    FailedDataKept(ports);
    forall k | 0 <= k < |FailedIndices(ports)| {
      FailedRecordFields(ports[FailedIndices(ports)[k]].fields);
    }
  }

  /** `extract_failed_data`: a status that cannot be read aborts before
      anything is written. */
  method ExtractFailedData(ports: seq<Json>) returns (r: Result<Extracted>)
    ensures r == ExtractSpec(ports)
  {
    var failed := FilterFailed(ports);
    if failed.Err? {
      return Err(failed.error);
    }
    FailedProjected(ports);
    var errorTypes := TallyErrors(failed.value);
    if errorTypes.Err? {
      return Ok(Extracted(failed.value, Err(errorTypes.error)));
    }
    return Ok(Extracted(failed.value, Ok(SortByCount(errorTypes.value))));
  }

  /** The breakdown of a run: one item per message kind, counts at least 1
      adding up to the number of failed records, in non-increasing order. */
  lemma BreakdownMeaning(ports: seq<Json>)
    requires ExtractSpec(ports).Ok? && ExtractSpec(ports).value.breakdown.Ok?
    ensures var e := ExtractSpec(ports).value;
      var b := e.breakdown.value;
      && NonIncreasing(b)
      && (forall i :: 0 <= i < |b| ==> b[i].1 >= 1)
      && SumCounts(TallyOf(Messages(e.failed)).value) == |e.failed|
      && multiset(b) == multiset(TallyOf(Messages(e.failed)).value)
  {
    var e := ExtractSpec(ports).value;
    var msgs := Messages(e.failed);
    ExtractSpecParts(ports);
    TallyMeaning(msgs);
    var t := TallyOf(msgs).value;
    SortByCountSorted(t);
    PermutationKeepsPositive(t, e.breakdown.value);
  }

  /** A successful run's breakdown is the sorted tally of its records. */
  lemma ExtractSpecParts(ports: seq<Json>)
    requires ExtractSpec(ports).Ok? && ExtractSpec(ports).value.breakdown.Ok?
    ensures var e := ExtractSpec(ports).value;
      && TallyOf(Messages(e.failed)).Ok?
      && e.breakdown.value == SortByCount(TallyOf(Messages(e.failed)).value)
  {
  }

  lemma PermutationKeepsPositive(t: Tally, b: Tally)
    requires multiset(b) == multiset(t) && forall i :: 0 <= i < |t| ==> t[i].1 >= 1
    ensures forall i :: 0 <= i < |b| ==> b[i].1 >= 1
  {
    forall i | 0 <= i < |b| ensures b[i].1 >= 1 {
      assert b[i] in multiset(t);
      var j :| 0 <= j < |t| && t[j] == b[i];
    }
  }
}
