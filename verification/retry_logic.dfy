/** The retrying fetcher of retry-logic.js: up to `retries` GETs against the one
    deployed instance, sleeping `min(1000 * 2^(attempt-1), 5000)` ms after each
    failed attempt but the last. */
module RetryLogic {
  import opened Network
  import SingleFetch

  /** `undefined` is what the function returns when `retries < 1` and the loop never runs. */
  datatype RetryResult =
    | Fetched(data: string)
    | Failed(error: string, status: int, attempt: nat)
    | NoResult

  function Pow2(e: nat): (p: nat)
    ensures p >= 1
  {
    if e == 0 then 1 else 2 * Pow2(e - 1)
  }

  lemma {:induction false} Pow2Monotone(a: nat, b: nat)
    requires a <= b
    ensures Pow2(a) <= Pow2(b)
    decreases b
  {
    if a < b {
      Pow2Monotone(a, b - 1);
    }
  }

  /** The sleep after the failed attempt numbered `attempt` (1-based), in ms. */
  function RetryDelay(attempt: nat): (d: nat)
    requires attempt >= 1
    ensures 1000 <= d <= 5000
  {
    var d := 1000 * Pow2(attempt - 1);
    if d < 5000 then d else 5000
  }

  /** The backoff never shrinks from one attempt to a later one. */
  lemma RetryDelayMonotone(a: nat, b: nat)
    requires 1 <= a <= b
    ensures RetryDelay(a) <= RetryDelay(b)
  {
    Pow2Monotone(a - 1, b - 1);
  }

  /** The schedule is 1000, 2000, 4000 and then 5000 ms for every later attempt. */
  lemma RetryDelayValues(attempt: nat)
    requires attempt >= 1
    ensures attempt == 1 ==> RetryDelay(attempt) == 1000
    ensures attempt == 2 ==> RetryDelay(attempt) == 2000
    ensures attempt == 3 ==> RetryDelay(attempt) == 4000
    ensures attempt >= 4 ==> RetryDelay(attempt) == 5000
  {
    if attempt >= 4 {
      Pow2Monotone(3, attempt - 1);
    }
  }

  /** The loop from attempt number `attempt` (1-based) on; attempt `a` asks the network for
      outcome `a - 1`. */
  function RetryFrom(url: string, net: Oracle, attempt: nat, retries: nat): (r: Run<RetryResult>)
    requires 1 <= attempt <= retries
    ensures var k := FirstOk(net, attempt - 1, retries);
      && |r.attempts| == (if k < retries then k + 1 else retries) - (attempt - 1)
      && (forall j :: 0 <= j < |r.attempts| ==> r.attempts[j].url == url)
      && (forall j :: 0 <= j < |r.attempts| ==>
            r.attempts[j].pause == (if attempt - 1 + j < k && attempt + j < retries then Some(RetryDelay(attempt + j)) else None))
      && (k < retries ==> r.result == Fetched(net(k).body))
      && (k == retries ==> r.result == Failed(net(retries - 1).message, StatusOr500(net(retries - 1)), retries))
    decreases retries - attempt
  {
    var o := net(attempt - 1);
    if o.Ok? then Run(Fetched(o.body), [Attempt(url, None)])
    else if attempt < retries then
      var rest := RetryFrom(url, net, attempt + 1, retries);
      Run(rest.result, [Attempt(url, Some(RetryDelay(attempt)))] + rest.attempts)
    else Run(Failed(o.message, StatusOr500(o), attempt), [Attempt(url, None)])
  }

  /** The default of the `retries` parameter. */
  const DEFAULT_RETRIES: nat := 3

  /** `fetchFromRSSHub(route, timeout, retries)`. */
  function Retry(route: string, net: Oracle, retries: int): (r: Run<RetryResult>)
    ensures r.result.NoResult? <==> retries < 1
    ensures retries < 1 ==> r.attempts == []
    ensures retries >= 1 ==> 1 <= |r.attempts| <= retries
    ensures forall j :: 0 <= j < |r.attempts| ==> r.attempts[j].url == SingleFetch.RSSHUB_BASE + route
  {
    if retries < 1 then Run(NoResult, [])
    else RetryFrom(SingleFetch.RSSHUB_BASE + route, net, 1, retries)
  }

  /** The first success ends the loop: attempts up to it are made, none after it. */
  lemma RetryStopsAtFirstSuccess(route: string, net: Oracle, retries: nat, k: nat)
    requires k < retries && net(k).Ok?
    requires forall j :: 0 <= j < k ==> !net(j).Ok?
    ensures var r := Retry(route, net, retries);
      && |r.attempts| == k + 1
      && r.result == Fetched(net(k).body)
  {
    assert FirstOk(net, 0, retries) == k;
  }

  /** When every attempt fails, `retries` requests are made and the result carries only the
      last attempt's message and status (500 without a response), with `attempt = retries`. */
  lemma RetryExhausted(route: string, net: Oracle, retries: nat)
    requires retries >= 1
    requires forall j :: 0 <= j < retries ==> !net(j).Ok?
    ensures var r := Retry(route, net, retries);
      && |r.attempts| == retries
      && r.result.Failed?
      && r.result.attempt == retries
      && r.result.error == net(retries - 1).message
      && r.result.status == (if net(retries - 1).Status? && net(retries - 1).status != 0 then net(retries - 1).status else 500)
  {
    assert FirstOk(net, 0, retries) == retries;
  }

  /** The sleeps taken: one fewer than the attempts made, at most `retries - 1` of them, the
      `i`-th being `RetryDelay(i + 1)`, so they never decrease and never exceed 5000 ms. */
  lemma RetrySleeps(route: string, net: Oracle, retries: nat)
    requires retries >= 1
    ensures var r := Retry(route, net, retries);
      var d := Delays(r.attempts);
      && |d| == |r.attempts| - 1
      && |d| <= retries - 1
      && (forall i :: 0 <= i < |d| ==> d[i] == RetryDelay(i + 1))
      && (forall i, j :: 0 <= i <= j < |d| ==> d[i] <= d[j])
      && (forall i :: 0 <= i < |d| ==> d[i] <= 5000)
  {
    var a := Retry(route, net, retries).attempts;
    RetryPauses(route, net, retries);
    DelaysOfLeadingPauses(a);
    var d := Delays(a);
    assert forall i :: 0 <= i < |d| ==> d[i] == a[i].pause.value;
    ScheduleOrdered(d);
  }

  /** Sleeps that follow the backoff schedule never decrease and never exceed 5000 ms. */
  lemma ScheduleOrdered(d: seq<nat>)
    requires forall i :: 0 <= i < |d| ==> d[i] == RetryDelay(i + 1)
    ensures forall i, j :: 0 <= i <= j < |d| ==> d[i] <= d[j]
    ensures forall i :: 0 <= i < |d| ==> d[i] <= 5000
  {
    forall i, j | 0 <= i <= j < |d|
      ensures d[i] <= d[j]
    {
      RetryDelayMonotone(i + 1, j + 1);
    }
  }

  /** Every attempt but the last made sleeps `RetryDelay` of its own number; the last does not. */
  lemma RetryPauses(route: string, net: Oracle, retries: nat)
    requires retries >= 1
    ensures var a := Retry(route, net, retries).attempts;
      && 0 < |a| <= retries
      && a[|a| - 1].pause.None?
      && forall j :: 0 <= j < |a| - 1 ==> a[j].pause == Some(RetryDelay(j + 1))
  {
    var k := FirstOk(net, 0, retries);
    var a := RetryFrom(SingleFetch.RSSHUB_BASE + route, net, 1, retries).attempts;
    assert |a| == if k < retries then k + 1 else retries;
    forall j | 0 <= j < |a| - 1 ensures a[j].pause == Some(RetryDelay(j + 1)) {
      assert j < k && 1 + j < retries;
    }
  }

  /** Under the default of three tries, a total failure makes three requests and sleeps
      1000 ms after the first and 2000 ms after the second. */
  lemma DefaultTotalFailure(route: string, net: Oracle)
    requires !net(0).Ok? && !net(1).Ok? && !net(2).Ok?
    ensures var r := Retry(route, net, DEFAULT_RETRIES);
      && |r.attempts| == 3
      && Delays(r.attempts) == [1000, 2000]
      && r.result.Failed? && r.result.attempt == 3
  {
    RetryExhausted(route, net, DEFAULT_RETRIES);
    RetrySleeps(route, net, DEFAULT_RETRIES);
    RetryDelayValues(1);
    RetryDelayValues(2);
  }

  /** With a single try the retrying fetcher behaves like the single-shot one. */
  lemma OneRetryIsSingleFetch(route: string, net: Oracle)
    ensures var r := Retry(route, net, 1);
      var s := SingleFetch.FetchOnce(route, net);
      && r.attempts == s.attempts
      && (r.result.Fetched? <==> s.result.Fetched?)
      && (r.result.Fetched? ==> r.result.data == s.result.data)
      && (r.result.Failed? ==> r.result.error == s.result.error && r.result.status == s.result.status)
  {
  }
}
