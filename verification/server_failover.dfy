/** The failover fetcher of server-failover.js: the four configured instances are
    tried in order, with a fixed 1500 ms sleep after every failure but the last;
    each failure is recorded, and a total failure answers 503 with the records. */
module ServerFailover {
  import opened Network

  const RSSHUB_INSTANCES: seq<string> := [
    "https://rsshub-production-82c7.up.railway.app",
    "https://rsshub.app",
    "https://rss.shab.fun",
    "https://rsshub.rssforever.com"
  ]

  const ALL_UNAVAILABLE: string := "All RSSHub instances unavailable"

  datatype ErrorInfo = ErrorInfo(instance: string, status: StatusKey, message: string, attempt: nat)

  datatype FailoverResult =
    | Fetched(data: string, usedInstance: string, attempt: nat)
    | AllFailed(error: string, status: nat, errors: seq<ErrorInfo>, totalAttempts: nat)

  /** The record of the failure at position `i`. */
  function ErrorFor(instances: seq<string>, net: Oracle, i: nat): (e: ErrorInfo)
    requires i < |instances| && !net(i).Ok?
    ensures e.instance == instances[i] && e.attempt == i + 1
    ensures e.message == net(i).message
    ensures e.status == NetworkError <==> !(net(i).Status? && net(i).status != 0)
  {
    ErrorInfo(instances[i], KeyOf(net(i)), net(i).message, i + 1)
  }

  /** The records of the failures at positions `i..`, in order. */
  function ErrorsFrom(instances: seq<string>, net: Oracle, i: nat): (errs: seq<ErrorInfo>)
    requires i <= |instances|
    requires forall j :: i <= j < |instances| ==> !net(j).Ok?
    ensures |errs| == |instances| - i
    ensures forall j :: 0 <= j < |errs| ==> errs[j] == ErrorFor(instances, net, i + j)
    decreases |instances| - i
  {
    if i == |instances| then [] else [ErrorFor(instances, net, i)] + ErrorsFrom(instances, net, i + 1)
  }

  /** How the loop ends: an instance answered, or every one failed with these records. */
  datatype Pass = Served(index: nat, body: string) | Exhausted(errors: seq<ErrorInfo>)

  /** The loop from position `i` on. */
  function TryFrom(instances: seq<string>, route: string, net: Oracle, i: nat): (r: Run<Pass>)
    requires i <= |instances|
    ensures var n := |instances|; var k := FirstOk(net, i, n);
      && |r.attempts| == (if k < n then k + 1 else n) - i
      && (forall j :: 0 <= j < |r.attempts| ==> r.attempts[j].url == instances[i + j] + route)
      && (forall j :: 0 <= j < |r.attempts| ==> r.attempts[j].pause == (if i + j < k && i + j < n - 1 then Some(1500) else None))
      && (k < n ==> r.result == Served(k, net(k).body))
      && (k == n ==> r.result == Exhausted(ErrorsFrom(instances, net, i)))
    decreases |instances| - i
  {
    if i == |instances| then Run(Exhausted([]), [])
    else
      var url := instances[i] + route;
      if net(i).Ok? then Run(Served(i, net(i).body), [Attempt(url, None)])
      else
        var rest := TryFrom(instances, route, net, i + 1);
        assert FirstOk(net, i, |instances|) == FirstOk(net, i + 1, |instances|);
        Run(match rest.result
            case Served(k, body) => Served(k, body)
            case Exhausted(errs) => Exhausted([ErrorFor(instances, net, i)] + errs),
            [Attempt(url, if i < |instances| - 1 then Some(1500) else None)] + rest.attempts)
  }

  /** `fetchFromRSSHub(route)` over the four configured instances. */
  function Fetch(route: string, net: Oracle): (r: Run<FailoverResult>)
    ensures var n := |RSSHUB_INSTANCES|; var k := FirstOk(net, 0, n);
      && |r.attempts| == (if k < n then k + 1 else n)
      && (forall j :: 0 <= j < |r.attempts| ==> r.attempts[j].url == RSSHUB_INSTANCES[j] + route)
      && (forall j :: 0 <= j < |r.attempts| ==> r.attempts[j].pause == (if j < k && j < n - 1 then Some(1500) else None))
      && (k < n ==> r.result == Fetched(net(k).body, RSSHUB_INSTANCES[k], k + 1))
      && (k == n ==> r.result == AllFailed(ALL_UNAVAILABLE, 503, ErrorsFrom(RSSHUB_INSTANCES, net, 0), n))
  {
    var pass := TryFrom(RSSHUB_INSTANCES, route, net, 0);
    var result := match pass.result
      case Served(k, body) => Fetched(body, RSSHUB_INSTANCES[k], k + 1)
      case Exhausted(errs) => AllFailed(ALL_UNAVAILABLE, 503, errs, |RSSHUB_INSTANCES|);
    Run(result, pass.attempts)
  }

  /** On total failure: one record per instance, in order, with its 1-based attempt number
      and the response status or NETWORK_ERROR; status 503 and `totalAttempts = 4`. */
  lemma TotalFailureRecords(route: string, net: Oracle)
    requires forall j :: 0 <= j < |RSSHUB_INSTANCES| ==> !net(j).Ok?
    ensures var r := Fetch(route, net).result;
      && r.AllFailed?
      && r.status == 503
      && r.totalAttempts == 4
      && |r.errors| == |RSSHUB_INSTANCES| == 4
      && RecordsEveryInstance(r.errors, net)
  {
    assert FirstOk(net, 0, 4) == 4;
  }

  /** The j-th record names the j-th instance, counts attempt j + 1, stands for a failed
      attempt and carries its message, and is filed as a network error exactly when no HTTP status came back. */
  predicate RecordsEveryInstance(errors: seq<ErrorInfo>, net: Oracle)
  {
    && |errors| <= |RSSHUB_INSTANCES|
    && forall j :: 0 <= j < |errors| ==>
         && errors[j].instance == RSSHUB_INSTANCES[j]
         && errors[j].attempt == j + 1
         && !net(j).Ok?
         && errors[j].message == net(j).message
         && (errors[j].status == NetworkError <==> !(net(j).Status? && net(j).status != 0))
  }

  /** The sleeps are 1500 ms each, one per failure before the last attempt made. */
  lemma FixedSleeps(route: string, net: Oracle)
    ensures var a := Fetch(route, net).attempts;
      && Delays(a) == seq(|a| - 1, _ => 1500)
  {
    var a := Fetch(route, net).attempts;
    FetchPauses(route, net);
    UniformDelays(a, 1500);
  }

  /** Every attempt but the last made is followed by a 1500 ms sleep. */
  lemma FetchPauses(route: string, net: Oracle)
    ensures var a := Fetch(route, net).attempts;
      && |a| > 0 && a[|a| - 1].pause.None?
      && forall j :: 0 <= j < |a| - 1 ==> a[j].pause == Some(1500)
  {
    assert Fetch(route, net).attempts == TryFrom(RSSHUB_INSTANCES, route, net, 0).attempts;
    TryPauses(RSSHUB_INSTANCES, route, net);
  }

  lemma TryPauses(instances: seq<string>, route: string, net: Oracle)
    requires |instances| > 0
    ensures var a := TryFrom(instances, route, net, 0).attempts;
      && |a| > 0 && a[|a| - 1].pause.None?
      && forall j :: 0 <= j < |a| - 1 ==> a[j].pause == Some(1500)
  {
    var k := FirstOk(net, 0, |instances|);
  }
}
