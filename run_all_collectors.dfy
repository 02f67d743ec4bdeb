/** The orchestrator, `backend/collectors/run_all_collectors.py`: run each
    collector in turn, retrying one that raises with exponential backoff,
    and record one result per collector. */
module RunAllCollectors {
  import opened Common

  const MaxRetries: nat := 3
  const BaseDelaySeconds: nat := 5

  /** One entry of `COLLECTORS`: where its entry point lives, and its display name. */
  datatype Collector = Collector(moduleName: string, functionName: string, name: string)

  const Collectors: seq<Collector> := [
    Collector("update_city_weather", "main", "City Weather"),
    Collector("fetch_weather_data", "main", "Grid Weather"),
    Collector("pelabuhan.pelabuhan_weather", "main", "Port Weather")]

  /** The pause after failed attempt `attempt` (counted from 1). */
  function Backoff(attempt: nat): nat
    requires attempt >= 1
  {
    BaseDelaySeconds * Pow2(attempt - 1)
  }

  /** What a run of `run_with_retry` gives: whether it succeeded, how often
      the collector was called, and the pauses taken, in seconds. */
  datatype Retried = Retried(success: bool, calls: nat, sleeps: seq<nat>)

  /** `run_with_retry` from attempt `attempt` on; call `a` of the collector
      ends as `calls(a)`. A call that returns stops the loop with True; one
      that raises is followed by a pause unless it was the last. */
  function RetryFrom(calls: nat -> Outcome, attempt: nat): (r: Retried)
    requires 1 <= attempt <= MaxRetries
    ensures attempt <= r.calls <= MaxRetries
    decreases MaxRetries - attempt
  {
    if calls(attempt).Pass? then Retried(true, attempt, [])
    else if attempt == MaxRetries then Retried(false, attempt, [])
    else
      var rest := RetryFrom(calls, attempt + 1);
      Retried(rest.success, rest.calls, [Backoff(attempt)] + rest.sleeps)
  }

  function Retry(calls: nat -> Outcome): Retried
  {
    RetryFrom(calls, 1)
  }

  /** The run succeeds exactly when some attempt returns, and stops at the
      first one that does; it fails only after all three attempts raised. */
  lemma {:induction false} RetryFromMeaning(calls: nat -> Outcome, attempt: nat)
    requires 1 <= attempt <= MaxRetries
    ensures var r := RetryFrom(calls, attempt);
      && (r.success <==> exists a :: attempt <= a <= MaxRetries && calls(a).Pass?)
      && (forall a :: attempt <= a < r.calls ==> calls(a).Fail?)
      && (r.success <==> calls(r.calls).Pass?)
      && (!r.success ==> r.calls == MaxRetries)
      && |r.sleeps| == r.calls - attempt
      && forall j :: 0 <= j < |r.sleeps| ==> r.sleeps[j] == Backoff(attempt + j)
    decreases MaxRetries - attempt
  {
    if calls(attempt).Fail? && attempt < MaxRetries {
      RetryFromMeaning(calls, attempt + 1);
      var rest := RetryFrom(calls, attempt + 1);
      assert rest.success ==> exists a :: attempt <= a <= MaxRetries && calls(a).Pass?;
      var r := RetryFrom(calls, attempt);
      forall j | 0 <= j < |r.sleeps| ensures r.sleeps[j] == Backoff(attempt + j) {
        if j > 0 {
          assert r.sleeps[j] == rest.sleeps[j - 1];
        }
      }
    }
  }

  /** The pauses of a whole run are a prefix of 5 then 10 seconds: none
      after the last attempt, and at most two. */
  lemma RetrySleeps(calls: nat -> Outcome)
    ensures var r := Retry(calls);
      && 1 <= r.calls <= 3
      && r.sleeps == [5, 10][..r.calls - 1]
      && (!r.success ==> r.sleeps == [5, 10])
      && (r.success <==> exists a :: 1 <= a <= 3 && calls(a).Pass?)
  {
    RetryFromMeaning(calls, 1);
    var r := Retry(calls);
    assert Backoff(1) == 5;
    assert Backoff(2) == 10 by { assert Pow2(1) == 2; }
    assert r.sleeps == [5, 10][..r.calls - 1];
  }

  /** `run_with_retry`, the attempt loop. */
  method RunWithRetry(calls: nat -> Outcome) returns (success: bool, made: nat, sleeps: seq<nat>)
    ensures Retried(success, made, sleeps) == Retry(calls)
  {
    sleeps := [];
    for attempt := 1 to MaxRetries + 1
      invariant forall a :: 1 <= a < attempt ==> calls(a).Fail?
      invariant attempt <= MaxRetries ==>
        Retry(calls) == (var rest := RetryFrom(calls, attempt); Retried(rest.success, rest.calls, sleeps + rest.sleeps))
      invariant attempt == MaxRetries + 1 ==> Retry(calls) == Retried(false, MaxRetries, sleeps)
    {
      if calls(attempt).Pass? {
        return true, attempt, sleeps;
      }
      if attempt < MaxRetries {
        var delay := BaseDelaySeconds * Pow2(attempt - 1);
        sleeps := sleeps + [delay];
      }
    }
    return false, MaxRetries, sleeps;
  }

  /** One entry of `results`: the collector's name, whether it succeeded,
      and the error when its import failed. */
  datatype Entry = Entry(name: string, success: bool, error: Option<string>)

  /** The entry `main` records for one collector, given what importing
      its entry point gives: an error, or the outcomes of its calls. */
  function EntryFor(c: Collector, imported: Result<nat -> Outcome>): Entry
  {
    match imported
    case Err(e) => Entry(c.name, false, Some(e))
    case Ok(calls) => Entry(c.name, Retry(calls).success, None)
  }

  /** The pauses taken while running the first `k` collectors, in order. */
  function PausesOf(imports: Collector -> Result<nat -> Outcome>, k: nat): seq<nat>
    requires k <= |Collectors|
  {
    if k == 0 then []
    else
      var imported := imports(Collectors[k - 1]);
      PausesOf(imports, k - 1) + (if imported.Ok? then Retry(imported.value).sleeps else [])
  }

  /** `main`: each collector, in order, is imported and run with retries;
      an import failure is recorded with its error and the next collector
      still runs. `imports(c)` is what importing collector `c` gives. */
  method RunAll(imports: Collector -> Result<nat -> Outcome>) returns (results: seq<Entry>, sleeps: seq<nat>)
    ensures |results| == |Collectors|
    ensures forall k :: 0 <= k < |Collectors| ==> results[k] == EntryFor(Collectors[k], imports(Collectors[k]))
    ensures sleeps == PausesOf(imports, |Collectors|)
  {
    results := [];
    sleeps := [];
    for k := 0 to |Collectors|
      invariant |results| == k
      invariant forall i :: 0 <= i < k ==> results[i] == EntryFor(Collectors[i], imports(Collectors[i]))
      invariant sleeps == PausesOf(imports, k)
    {
      var collector := Collectors[k];
      var imported := imports(collector);
      if imported.Err? {
        results := results + [Entry(collector.name, false, Some(imported.error))];
      } else {
        var success, _, pauses := RunWithRetry(imported.value);
        results := results + [Entry(collector.name, success, None)];
        sleeps := sleeps + pauses;
      }
    }
  }

  /** Every collector is recorded under its own name, in `COLLECTORS` order,
      and only an import failure carries an error. */
  lemma EntriesNamed(imports: Collector -> Result<nat -> Outcome>, k: nat)
    requires k < |Collectors|
    ensures EntryFor(Collectors[k], imports(Collectors[k])).name == Collectors[k].name
    ensures EntryFor(Collectors[k], imports(Collectors[k])).error.Some? <==> imports(Collectors[k]).Err?
    ensures EntryFor(Collectors[k], imports(Collectors[k])).success ==> imports(Collectors[k]).Ok?
  {
  }
}
