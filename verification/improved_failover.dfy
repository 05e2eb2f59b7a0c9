/** The failover fetcher of server-improved.js: a primary RSSHub instance and
    its fallbacks are tried in order until one answers 2xx. After a failure it
    sleeps 3000 ms when the failure was at the primary and 1000 ms at a
    fallback, but never after the last instance. Every failure is recorded.
    When all instances fail, the records are summarised: the most common status,
    a suggestion keyed off that status, and the first record's message.

    `Fetch` is the behaviour the catch block at lines 57-117 describes.
    `FetchAsWritten` is what the code does: the catch block reads `timeoutId`,
    a `const` declared inside the `try` block, so every failure throws a
    ReferenceError before any of that runs. */
module ImprovedFailover {
  import opened Network
  import StatusTally
  import Portfolio

  const RSSHUB_PRIMARY: string := "https://rsshub-production-82c7.up.railway.app"
  const RSSHUB_FALLBACKS: seq<string> := ["https://rsshub.app", "https://rss.shab.fun", "https://rsshub.rssforever.com"]

  /** The record kept for one failed attempt. */
  datatype ErrorInfo = ErrorInfo(instance: string, status: StatusKey, message: string, code: string, attempt: nat, isPrimary: bool)

  /** What the fetcher reports when every instance failed. The most common status and
      the suggestion are determined by the records, so they are computed from them. */
  datatype Summary = Summary(
    error: string,
    primaryError: string,
    errors: seq<ErrorInfo>,
    totalAttempts: nat)
  {
    /** `mostCommonStatus` */
    function MostCommonStatus(): StatusKey
    {
      StatusTally.MostCommon(StatusKeys(errors))
    }

    /** `suggestion` */
    function Advice(): string
    {
      Suggestion(MostCommonStatus())
    }
  }

  datatype FetchResult =
    | Fetched(data: string, usedInstance: string, isPrimary: bool, attempt: nat, responseSize: nat)
    | AllFailed(summary: Summary)

  const ALL_UNAVAILABLE: string := "All RSSHub instances unavailable"
  const PRIMARY_FAILED: string := "Primary instance failed"
  const SUGGEST_RETRY_LATER: string := "Service temporarily unavailable. Try again in a few minutes."
  const SUGGEST_SLOW_DOWN: string := "Rate limited. Please reduce request frequency."
  const SUGGEST_CHECK_NETWORK: string := "Network or configuration issue. Check your connection."

  /** The record of the failed attempt at position `i`. */
  function ErrorFor(instances: seq<string>, net: Oracle, i: nat): (e: ErrorInfo)
    requires i < |instances| && !net(i).Ok?
    ensures e.instance == instances[i] && e.attempt == i + 1 && (e.isPrimary <==> e.attempt == 1)
    ensures e.message == net(i).message && e.status == KeyOf(net(i))
    ensures e.code != "" && (net(i).code != "" ==> e.code == net(i).code)
  {
    var o := net(i);
    ErrorInfo(instances[i], KeyOf(o), o.message, if o.code == "" then "UNKNOWN" else o.code, i + 1, i == 0)
  }

  /** The records of the failed attempts at positions `i..`, in order. */
  function ErrorsFrom(instances: seq<string>, net: Oracle, i: nat): (errs: seq<ErrorInfo>)
    requires i <= |instances|
    requires forall j :: i <= j < |instances| ==> !net(j).Ok?
    ensures |errs| == |instances| - i
    ensures forall j :: 0 <= j < |errs| ==> errs[j] == ErrorFor(instances, net, i + j)
    decreases |instances| - i
  {
    if i == |instances| then [] else [ErrorFor(instances, net, i)] + ErrorsFrom(instances, net, i + 1)
  }

  /** The sleep after a failure at position `i` of `n` instances. */
  function Backoff(i: nat, n: nat): (d: Option<nat>)
    ensures d.None? <==> i + 1 >= n
    ensures d.Some? ==> (d.value == 3000 <==> i == 0) && (d.value == 1000 <==> i > 0)
  {
    if i == 0 && i < n - 1 then Some(3000)
    else if i < n - 1 then Some(1000)
    else None
  }

  function StatusKeys(errors: seq<ErrorInfo>): (keys: seq<StatusKey>)
    ensures |keys| == |errors|
    ensures forall j :: 0 <= j < |keys| ==> keys[j] == errors[j].status
  {
    seq(|errors|, j requires 0 <= j < |errors| => errors[j].status)
  }

  /** The advice attached to a total failure. */
  function Suggestion(common: StatusKey): (advice: string)
    ensures advice == SUGGEST_RETRY_LATER <==> common == Code(503)
    ensures advice == SUGGEST_SLOW_DOWN <==> common == Code(429)
    ensures advice == SUGGEST_CHECK_NETWORK <==> common != Code(503) && common != Code(429)
  {
    if common == Code(503) then SUGGEST_RETRY_LATER
    else if common == Code(429) then SUGGEST_SLOW_DOWN
    else SUGGEST_CHECK_NETWORK
  }

  /** The HTTP status the news route answers a total failure with (lines 173-174). */
  function HttpStatus(common: StatusKey): (status: nat)
    ensures status == 429 || status == 503 || status == 500
    ensures status == 429 <==> common == Code(429)
    ensures status == 503 <==> common == Code(503)
    ensures status == 500 <==> Suggestion(common) == SUGGEST_CHECK_NETWORK
  {
    if common == Code(429) then 429
    else if common == Code(503) then 503
    else 500
  }

  /** The summary of a total failure: every record kept, and `errors[0]?.message` or a
      fixed text as the primary's error. */
  function Summarise(errors: seq<ErrorInfo>, total: nat): (s: Summary)
    ensures s.error == ALL_UNAVAILABLE && s.errors == errors && s.totalAttempts == total
    ensures |errors| > 0 && errors[0].message != "" ==> s.primaryError == errors[0].message
    ensures !(|errors| > 0 && errors[0].message != "") ==> s.primaryError == PRIMARY_FAILED
  {
    var primaryError := if |errors| > 0 && errors[0].message != "" then errors[0].message else PRIMARY_FAILED;
    Summary(ALL_UNAVAILABLE, primaryError, errors, total)
  }

  /** How the loop over the instances ends: an instance answered 2xx, or every one failed. */
  datatype Pass = Served(index: nat, body: string) | Exhausted(errors: seq<ErrorInfo>)

  /** The loop from position `i` on: the requests it makes and how it ends. */
  function Rotate(instances: seq<string>, route: string, net: Oracle, i: nat): (r: Run<Pass>)
    requires i <= |instances|
    ensures var n := |instances|; var k := FirstOk(net, i, n);
      && |r.attempts| == (if k < n then k + 1 else n) - i
      && (forall j :: 0 <= j < |r.attempts| ==> r.attempts[j].url == instances[i + j] + route)
      && (forall j :: 0 <= j < |r.attempts| ==> r.attempts[j].pause == (if i + j < k then Backoff(i + j, n) else None))
      && (k < n ==> r.result == Served(k, net(k).body))
      && (k == n ==> r.result == Exhausted(ErrorsFrom(instances, net, i)))
    decreases |instances| - i
  {
    if i == |instances| then Run(Exhausted([]), [])
    else
      var url := instances[i] + route;
      if net(i).Ok? then Run(Served(i, net(i).body), [Attempt(url, None)])
      else
        var rest := Rotate(instances, route, net, i + 1);
        assert FirstOk(net, i, |instances|) == FirstOk(net, i + 1, |instances|);
        Run(match rest.result
            case Served(k, body) => Served(k, body)
            case Exhausted(errs) => Exhausted([ErrorFor(instances, net, i)] + errs),
            [Attempt(url, Backoff(i, |instances|))] + rest.attempts)
  }

  /** The instances the fetcher tries: the primary, then the fallbacks. */
  function Instances(primary: string, fallbacks: seq<string>): (instances: seq<string>)
    ensures |instances| == |fallbacks| + 1 && instances[0] == primary
    ensures forall j :: 0 <= j < |fallbacks| ==> instances[j + 1] == fallbacks[j]
  {
    [primary] + fallbacks
  }

  /** `fetchFromRSSHub(route)`: the loop over the instances, then either the answer that
      ended it or the summary of every failure. */
  function Fetch(primary: string, fallbacks: seq<string>, route: string, net: Oracle): (r: Run<FetchResult>)
    ensures var instances := Instances(primary, fallbacks);
      var n := |instances|; var k := FirstOk(net, 0, n);
      && (r.result.Fetched? <==> k < n)
      && (k < n ==> r.result == Fetched(net(k).body, instances[k], k == 0, k + 1, Utf16Length(net(k).body)))
      && (k == n ==> r.result == AllFailed(Summarise(ErrorsFrom(instances, net, 0), n)))
  {
    var instances := Instances(primary, fallbacks);
    var pass := Rotate(instances, route, net, 0);
    var result := match pass.result
      case Served(k, body) => Fetched(body, instances[k], k == 0, k + 1, Utf16Length(body))
      case Exhausted(errs) => AllFailed(Summarise(errs, |instances|));
    Run(result, pass.attempts)
  }

  /** The requests `Fetch` makes: with `k` the position of the first 2xx answer (or the
      number of instances when there is none), exactly the instances up to `k` are asked,
      in order, and the pause after each failure depends only on its position. */
  lemma FetchTrace(primary: string, fallbacks: seq<string>, route: string, net: Oracle)
    ensures var a := Fetch(primary, fallbacks, route, net).attempts;
      var instances := Instances(primary, fallbacks);
      var n := |instances|; var k := FirstOk(net, 0, n);
      && |a| == (if k < n then k + 1 else n)
      && (forall j :: 0 <= j < |a| ==> a[j].url == instances[j] + route)
      && (forall j :: 0 <= j < |a| ==> a[j].pause == (if j < k then Backoff(j, n) else None))
  {
    var pass := Rotate(Instances(primary, fallbacks), route, net, 0);
    assert Fetch(primary, fallbacks, route, net).attempts == pass.attempts;
  }

  /** The first 2xx answer wins: no later instance is asked, and the result names the
      instance that answered, its 1-based position, and whether it was the primary. */
  lemma FirstSuccessWins(primary: string, fallbacks: seq<string>, route: string, net: Oracle, k: nat)
    requires k <= |fallbacks| && net(k).Ok?
    requires forall j :: 0 <= j < k ==> !net(j).Ok?
    ensures var r := Fetch(primary, fallbacks, route, net);
      && Urls(r.attempts) == seq(k + 1, j requires 0 <= j <= k => ([primary] + fallbacks)[j] + route)
      && r.result.Fetched?
      && r.result.data == net(k).body
      && r.result.usedInstance == ([primary] + fallbacks)[k]
      && r.result.attempt == k + 1
      && (r.result.isPrimary <==> k == 0)
  {
    assert FirstOk(net, 0, |fallbacks| + 1) == k;
  }

  /** With the configured instances: a primary that fails while the first fallback answers
      yields the fallback's body as the second attempt. */
  lemma FirstFallbackServes(route: string, net: Oracle)
    requires !net(0).Ok? && net(1).Ok?
    ensures Fetch(RSSHUB_PRIMARY, RSSHUB_FALLBACKS, route, net).result ==
      Fetched(net(1).body, RSSHUB_FALLBACKS[0], false, 2, Utf16Length(net(1).body))
  {
    FirstSuccessWins(RSSHUB_PRIMARY, RSSHUB_FALLBACKS, route, net, 1);
  }

  /** When every instance fails there is one record per instance, in order, each with its
      1-based attempt number and the response status or NETWORK_ERROR; `totalAttempts` is
      the number of instances. */
  lemma TotalFailureRecordsEveryAttempt(primary: string, fallbacks: seq<string>, route: string, net: Oracle)
    requires forall j :: 0 <= j <= |fallbacks| ==> !net(j).Ok?
    ensures var r := Fetch(primary, fallbacks, route, net);
      var instances := [primary] + fallbacks;
      && r.result.AllFailed?
      && Urls(r.attempts) == seq(|instances|, j requires 0 <= j < |instances| => instances[j] + route)
      && r.result.summary.totalAttempts == |instances|
      && |r.result.summary.errors| == |instances|
      && (forall j :: 0 <= j < |instances| ==>
            var e := r.result.summary.errors[j];
            && e.instance == instances[j]
            && e.attempt == j + 1
            && (e.isPrimary <==> j == 0)
            && e.message == net(j).message
            && (e.status == NetworkError <==> !(net(j).Status? && net(j).status != 0))
            && (e.status.Code? ==> e.status.n == net(j).status))
  {
    var instances := Instances(primary, fallbacks);
    var r := Fetch(primary, fallbacks, route, net);
    AllFailedKeepsRecords(primary, fallbacks, route, net);
    RecordsOfFailures(instances, net);
    FetchTrace(primary, fallbacks, route, net);
    UrlsAre(r.attempts, seq(|instances|, j requires 0 <= j < |instances| => instances[j] + route));
    assert r.result.summary.errors == ErrorsFrom(instances, net, 0);
  }

  /** On total failure the summary holds the records of every attempt. */
  lemma AllFailedKeepsRecords(primary: string, fallbacks: seq<string>, route: string, net: Oracle)
    requires forall j :: 0 <= j <= |fallbacks| ==> !net(j).Ok?
    ensures var r := Fetch(primary, fallbacks, route, net).result;
      && r.AllFailed?
      && r.summary.errors == ErrorsFrom(Instances(primary, fallbacks), net, 0)
      && r.summary.totalAttempts == |fallbacks| + 1
  {
    assert FirstOk(net, 0, |fallbacks| + 1) == |fallbacks| + 1;
  }

  /** The record of each failure names its instance, its 1-based position and its status. */
  lemma RecordsOfFailures(instances: seq<string>, net: Oracle)
    requires forall j :: 0 <= j < |instances| ==> !net(j).Ok?
    ensures forall j :: 0 <= j < |instances| ==>
      var e := ErrorsFrom(instances, net, 0)[j];
      && e.instance == instances[j]
      && e.attempt == j + 1
      && (e.isPrimary <==> j == 0)
      && e.message == net(j).message
      && (e.status == NetworkError <==> !(net(j).Status? && net(j).status != 0))
      && (e.status.Code? ==> e.status.n == net(j).status)
  {
    var errs := ErrorsFrom(instances, net, 0);
    forall j | 0 <= j < |instances|
      ensures errs[j] == ErrorFor(instances, net, j)
    {
    }
  }

  /** The pause after attempt `j` depends only on `j`: 3000 ms after the primary, 1000 ms
      after a fallback, and nothing after the last attempt made. */
  lemma BackoffDependsOnlyOnPosition(primary: string, fallbacks: seq<string>, route: string, net: Oracle)
    ensures var a := Fetch(primary, fallbacks, route, net).attempts;
      && |a| > 0
      && a[|a| - 1].pause == None
      && (forall j :: 0 <= j < |a| - 1 ==> a[j].pause == Some(if j == 0 then 3000 else 1000))
  {
    var n := |fallbacks| + 1;
    var k := FirstOk(net, 0, n);
  }

  /** Two networks that fail at the same positions produce the same sleeps, whatever the errors. */
  lemma SleepsIgnoreErrorKind(primary: string, fallbacks: seq<string>, route: string, net1: Oracle, net2: Oracle)
    requires forall j :: 0 <= j <= |fallbacks| ==> (net1(j).Ok? <==> net2(j).Ok?)
    ensures Delays(Fetch(primary, fallbacks, route, net1).attempts) == Delays(Fetch(primary, fallbacks, route, net2).attempts)
  {
    FirstOkAgree(net1, net2, 0, |fallbacks| + 1);
    FetchTrace(primary, fallbacks, route, net1);
    FetchTrace(primary, fallbacks, route, net2);
    assert Fetch(primary, fallbacks, route, net1).attempts == Fetch(primary, fallbacks, route, net2).attempts;
  }

  /** A pause after the primary is longer than any pause after a fallback. */
  lemma PrimaryWaitsLonger(primary: string, fallbacks: seq<string>, route: string, net: Oracle, j: nat)
    requires var a := Fetch(primary, fallbacks, route, net).attempts;
      0 < j < |a| && a[0].pause.Some? && a[j].pause.Some?
    ensures var a := Fetch(primary, fallbacks, route, net).attempts;
      a[0].pause.value > a[j].pause.value
  {
    BackoffDependsOnlyOnPosition(primary, fallbacks, route, net);
  }

  /** The summary's status is the most common recorded status (ties as `Object.entries`
      orders them), and the suggestion and the route's HTTP status both follow from it. */
  lemma SummaryClassifiesFailures(errors: seq<ErrorInfo>, total: nat)
    requires |errors| > 0
    ensures var s := Summarise(errors, total);
      var keys := StatusKeys(errors);
      && s.MostCommonStatus() in keys
      && (forall k :: k in keys ==> StatusTally.Count(keys, k) <= StatusTally.Count(keys, s.MostCommonStatus()))
      && (forall k :: k in keys && k != s.MostCommonStatus() && StatusTally.Count(keys, k) == StatusTally.Count(keys, s.MostCommonStatus()) ==>
            StatusTally.Precedes(keys, s.MostCommonStatus(), k))
      && (s.primaryError == if errors[0].message != "" then errors[0].message else PRIMARY_FAILED)
      && (s.Advice() == SUGGEST_RETRY_LATER <==> HttpStatus(s.MostCommonStatus()) == 503)
      && (s.Advice() == SUGGEST_SLOW_DOWN <==> HttpStatus(s.MostCommonStatus()) == 429)
      && (s.Advice() == SUGGEST_CHECK_NETWORK <==> HttpStatus(s.MostCommonStatus()) == 500)
  {
    StatusTally.MostCommonIsFirstMaximal(StatusKeys(errors));
  }

  /** Three attempts answering 503, 503 and 429: the failure is classified as 503. */
  lemma MajorityOf503IsUnavailable(route: string, net: Oracle)
    requires net(0).Status? && net(0).status == 503
    requires net(1).Status? && net(1).status == 503
    requires net(2).Status? && net(2).status == 429
    ensures var r := Fetch("https://a", ["https://b", "https://c"], route, net);
      && r.result.AllFailed?
      && r.result.summary.MostCommonStatus() == Code(503)
      && r.result.summary.Advice() == SUGGEST_RETRY_LATER
      && HttpStatus(r.result.summary.MostCommonStatus()) == 503
  {
    var errs := AllFailedSummarised("https://a", ["https://b", "https://c"], route, net);
    MajoritySummary(errs);
  }

  /** Records with statuses 503, 503 and 429 are summarised as 503. */
  lemma MajoritySummary(errs: seq<ErrorInfo>)
    requires |errs| == 3 && errs[0].status == Code(503) && errs[1].status == Code(503) && errs[2].status == Code(429)
    ensures Summarise(errs, 3).MostCommonStatus() == Code(503)
    ensures Summarise(errs, 3).Advice() == SUGGEST_RETRY_LATER
  {
    assert StatusKeys(errs) == [Code(503), Code(503), Code(429)];
    StatusTally.MajorityWins();
  }

  /** When every instance fails, the result summarises one record per instance, each filed
      under that attempt's status. */
  lemma AllFailedSummarised(primary: string, fallbacks: seq<string>, route: string, net: Oracle) returns (errs: seq<ErrorInfo>)
    requires forall j :: 0 <= j <= |fallbacks| ==> !net(j).Ok?
    ensures Fetch(primary, fallbacks, route, net).result == AllFailed(Summarise(errs, |fallbacks| + 1))
    ensures |errs| == |fallbacks| + 1
    ensures forall j :: 0 <= j < |errs| ==> errs[j].status == KeyOf(net(j))
  {
    var instances := Instances(primary, fallbacks);
    assert FirstOk(net, 0, |instances|) == |instances|;
    errs := ErrorsFrom(instances, net, 0);
  }

  /** `details.meta` of an error response. */
  datatype Meta = Meta(instancesAttempted: nat, mostCommonStatus: StatusKey, canRetry: bool)

  /** The JSON body of an error response; optional fields are absent when `None`. */
  datatype ErrorResponse = ErrorResponse(
    error: string,
    details: string,
    route: string,
    company: Option<Portfolio.Company>,
    suggestion: Option<string>,
    meta: Option<Meta>)

  /** `createErrorResponse(baseError, route, companyData)`; the timestamp is left out. */
  function CreateErrorResponse(base: Summary, route: string, company: Option<Portfolio.Company>): (resp: ErrorResponse)
    ensures resp.error == (if base.error != "" then base.error else "RSSHub fetch failed")
    ensures resp.details == (if base.primaryError != "" then base.primaryError else base.error)
    ensures resp.route == route
    ensures resp.company == company
    ensures resp.suggestion.Some? <==> base.Advice() != ""
    ensures resp.suggestion.Some? ==> resp.suggestion.value == base.Advice()
    ensures resp.meta.Some? <==> base.totalAttempts != 0
    ensures resp.meta.Some? ==>
      && resp.meta.value.instancesAttempted == base.totalAttempts
      && resp.meta.value.mostCommonStatus == base.MostCommonStatus()
      && (resp.meta.value.canRetry <==> base.MostCommonStatus() != Code(404))
  {
    ErrorResponse(
      if base.error != "" then base.error else "RSSHub fetch failed",
      if base.primaryError != "" then base.primaryError else base.error,
      route,
      company,
      if base.Advice() != "" then Some(base.Advice()) else None,
      if base.totalAttempts != 0 then Some(Meta(base.totalAttempts, base.MostCommonStatus(), base.MostCommonStatus() != Code(404))) else None)
  }

  /** The error response for a total failure of the fetcher always carries a suggestion and
      the meta block counting every instance; its details are the primary's message, and it
      offers a retry exactly when the most common status is not 404. */
  lemma ErrorResponseOfTotalFailure(primary: string, fallbacks: seq<string>, route: string, net: Oracle, company: Option<Portfolio.Company>)
    requires forall j :: 0 <= j <= |fallbacks| ==> !net(j).Ok?
    ensures var r := Fetch(primary, fallbacks, route, net);
      r.result.AllFailed? &&
      var resp := CreateErrorResponse(r.result.summary, route, company);
      && resp.error == ALL_UNAVAILABLE
      && resp.details == (if net(0).message != "" then net(0).message else PRIMARY_FAILED)
      && resp.suggestion.Some?
      && resp.meta.Some?
      && resp.meta.value.instancesAttempted == |fallbacks| + 1
      && (resp.meta.value.canRetry <==> r.result.summary.MostCommonStatus() != Code(404))
  {
    var instances := Instances(primary, fallbacks);
    assert FirstOk(net, 0, |instances|) == |instances|;
    var errs := ErrorsFrom(instances, net, 0);
    assert errs[0].message == net(0).message;
  }

  /** When every instance answers 404 the failure is filed under 404, the route answers 500,
      and the error response says a retry will not help. */
  lemma AllNotFoundCannotRetry(primary: string, fallbacks: seq<string>, route: string, net: Oracle)
    requires forall j :: 0 <= j <= |fallbacks| ==> net(j).Status? && net(j).status == 404
    ensures var r := Fetch(primary, fallbacks, route, net);
      r.result.AllFailed? && FinalNotFound(r.result.summary, route)
  {
    var s := AllNotFoundSummary(primary, fallbacks, route, net);
  }

  /** A summary filed under 404: the route answers 500, the suggestion is to check the
      connection, and the error response offers no retry. */
  predicate FinalNotFound(s: Summary, route: string)
  {
    && s.MostCommonStatus() == Code(404)
    && HttpStatus(s.MostCommonStatus()) == 500
    && s.Advice() == SUGGEST_CHECK_NETWORK
    && CreateErrorResponse(s, route, None).meta.Some?
    && !CreateErrorResponse(s, route, None).meta.value.canRetry
  }

  lemma AllNotFoundSummary(primary: string, fallbacks: seq<string>, route: string, net: Oracle) returns (s: Summary)
    requires forall j :: 0 <= j <= |fallbacks| ==> net(j).Status? && net(j).status == 404
    ensures Fetch(primary, fallbacks, route, net).result == AllFailed(s)
    ensures FinalNotFound(s, route) && s.totalAttempts == |fallbacks| + 1
  {
    var errs := AllFailedSummarised(primary, fallbacks, route, net);
    NotFoundRecords(errs, net);
    UniformSummary(errs, |fallbacks| + 1, Code(404));
    s := Summarise(errs, |fallbacks| + 1);
    NotFoundSuggestion();
    NotFoundIsFinal(s, route);
  }

  lemma NotFoundSuggestion()
    ensures Suggestion(Code(404)) == SUGGEST_CHECK_NETWORK
  {
  }

  /** Records of attempts that all answered 404 are all filed under 404. */
  lemma NotFoundRecords(errs: seq<ErrorInfo>, net: Oracle)
    requires forall j :: 0 <= j < |errs| ==> net(j).Status? && net(j).status == 404
    requires forall j :: 0 <= j < |errs| ==> !net(j).Ok? && errs[j].status == KeyOf(net(j))
    ensures forall j :: 0 <= j < |errs| ==> errs[j].status == Code(404)
  {
  }

  /** A summary filed under 404 makes an error response that says a retry will not help. */
  lemma NotFoundIsFinal(s: Summary, route: string)
    requires s.MostCommonStatus() == Code(404) && s.totalAttempts != 0
    requires s.Advice() == SUGGEST_CHECK_NETWORK
    ensures FinalNotFound(s, route)
  {
  }

  /** Records that all carry the same status are summarised under it. */
  lemma UniformSummary(errs: seq<ErrorInfo>, total: nat, key: StatusKey)
    requires |errs| > 0 && forall j :: 0 <= j < |errs| ==> errs[j].status == key
    ensures Summarise(errs, total).MostCommonStatus() == key
    ensures Summarise(errs, total).Advice() == Suggestion(key)
    ensures Summarise(errs, total).totalAttempts == total
  {
    var keys := StatusKeys(errs);
    assert forall j :: 0 <= j < |keys| ==> keys[j] == key;
    StatusTally.MostCommonIsFirstMaximal(keys);
  }

  /** What `fetchFromRSSHub` does as written: it returns a value or throws an error with
      this message. */
  datatype Completion = Returned(value: FetchResult) | Threw(message: string)

  /** The message of the ReferenceError the catch block throws. */
  const TIMEOUT_ID_UNDEFINED: string := "timeoutId is not defined"

  /** The code as written: a failure at the primary reaches the catch block, whose first
      statement reads the out-of-scope `timeoutId` and throws, so nothing is recorded, no
      sleep is taken and no fallback is asked. */
  function FetchAsWritten(primary: string, fallbacks: seq<string>, route: string, net: Oracle): (r: Run<Completion>)
    ensures |r.attempts| == 1 && r.attempts[0] == Attempt(primary + route, None)
    ensures r.result.Threw? <==> !net(0).Ok?
    ensures r.result.Threw? ==> r.result.message == TIMEOUT_ID_UNDEFINED
  {
    var url := primary + route;
    match net(0)
    case Ok(body) => Run(Returned(Fetched(body, primary, true, 1, Utf16Length(body))), [Attempt(url, None)])
    case _ => Run(Threw(TIMEOUT_ID_UNDEFINED), [Attempt(url, None)])
  }

  /** The two agree whenever the primary answers; when it does not, the code as written
      throws where the intended loop goes on to the fallbacks. */
  lemma AsWrittenNeverFailsOver(primary: string, fallbacks: seq<string>, route: string, net: Oracle)
    ensures net(0).Ok? ==> FetchAsWritten(primary, fallbacks, route, net).result == Returned(Fetch(primary, fallbacks, route, net).result)
    ensures !net(0).Ok? && |fallbacks| > 0 ==>
      && FetchAsWritten(primary, fallbacks, route, net).result.Threw?
      && |Fetch(primary, fallbacks, route, net).attempts| > 1
  {
    var n := |fallbacks| + 1;
    assert net(0).Ok? ==> FirstOk(net, 0, n) == 0;
  }

  /** Mirror A answers 503 and mirror B answers with a feed: the intended fetcher returns B's
      body as attempt 2 after one 3000 ms pause, while the code as written throws. */
  lemma SecondMirrorServes(net: Oracle, feed: string)
    requires net(0) == Status(503, "ERR_BAD_RESPONSE", "Request failed with status code 503")
    requires net(1) == Ok(feed)
    ensures var r := Fetch("https://mirrorA", ["https://mirrorB"], "", net);
      && r.result == Fetched(feed, "https://mirrorB", false, 2, Utf16Length(feed))
      && Delays(r.attempts) == [3000]
    ensures FetchAsWritten("https://mirrorA", ["https://mirrorB"], "", net).result.Threw?
  {
    FirstSuccessWins("https://mirrorA", ["https://mirrorB"], "", net, 1);
    FetchTrace("https://mirrorA", ["https://mirrorB"], "", net);
    var a := Fetch("https://mirrorA", ["https://mirrorB"], "", net).attempts;
    assert |a| == 2 && a[0].pause == Some(3000) && a[1].pause == None;
    DelaysOfLeadingPauses(a);
  }
}
