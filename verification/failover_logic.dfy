/** The failover fetcher of failover-logic.js: each instance is tried once, in
    listed order. A 503 or 502 answer moves on at once; any other failure sleeps
    1000 ms first, even after the last instance. A total failure reports only
    how many instances there were. */
module FailoverLogic {
  import opened Network

  const RSSHUB_INSTANCES: seq<string> := [
    "https://rsshub-production-82c7.up.railway.app",
    "https://rsshub.app",
    "https://rss.shab.fun",
    "https://rsshub.rssforever.com",
    "https://rsshub.liunian.moe"
  ]

  const ALL_FAILED: string := "All RSSHub instances failed"

  datatype FailoverResult =
    | Served(data: string, usedInstance: string)
    | Failed(error: string, status: nat, triedInstances: nat)

  /** The sleep after a failed attempt: none when the instance answered 503 or 502. */
  function PauseAfter(o: Outcome): (p: Option<nat>)
    requires !o.Ok?
    ensures p.None? <==> o.Status? && (o.status == 503 || o.status == 502)
    ensures p.Some? ==> p.value == 1000
  {
    if o.Status? && (o.status == 503 || o.status == 502) then None else Some(1000)
  }

  /** The loop from position `i` on. */
  function TryFrom(instances: seq<string>, route: string, net: Oracle, i: nat): (r: Run<FailoverResult>)
    requires i <= |instances|
    ensures var n := |instances|; var k := FirstOk(net, i, n);
      && |r.attempts| == (if k < n then k + 1 else n) - i
      && (forall j :: 0 <= j < |r.attempts| ==> r.attempts[j].url == instances[i + j] + route)
      && (forall j :: 0 <= j < |r.attempts| ==> r.attempts[j].pause == (if i + j < k then PauseAfter(net(i + j)) else None))
      && (k < n ==> r.result == Served(net(k).body, instances[k]))
      && (k == n ==> r.result == Failed(ALL_FAILED, 503, n))
    decreases |instances| - i
  {
    if i == |instances| then Run(Failed(ALL_FAILED, 503, |instances|), [])
    else
      var url := instances[i] + route;
      if net(i).Ok? then Run(Served(net(i).body, instances[i]), [Attempt(url, None)])
      else
        var rest := TryFrom(instances, route, net, i + 1);
        Run(rest.result, [Attempt(url, PauseAfter(net(i)))] + rest.attempts)
  }

  /** `fetchFromRSSHubWithFailover(route)` over the five configured instances. */
  function FetchWithFailover(route: string, net: Oracle): (r: Run<FailoverResult>)
    ensures 1 <= |r.attempts| <= |RSSHUB_INSTANCES|
    ensures forall j :: 0 <= j < |r.attempts| ==> r.attempts[j].url == RSSHUB_INSTANCES[j] + route
    ensures r.result.Served? <==> exists j :: 0 <= j < |RSSHUB_INSTANCES| && net(j).Ok?
  {
    TryFrom(RSSHUB_INSTANCES, route, net, 0)
  }

  /** The first success ends the rotation and names the instance that served it. */
  lemma FirstSuccessServes(route: string, net: Oracle, k: nat)
    requires k < |RSSHUB_INSTANCES| && net(k).Ok?
    requires forall j :: 0 <= j < k ==> !net(j).Ok?
    ensures var r := FetchWithFailover(route, net);
      && |r.attempts| == k + 1
      && r.result == Served(net(k).body, RSSHUB_INSTANCES[k])
  {
    assert FirstOk(net, 0, |RSSHUB_INSTANCES|) == k;
  }

  /** A total failure is the same value whatever went wrong: no per-attempt detail survives. */
  lemma FailureCarriesNoDetail(route: string, net1: Oracle, net2: Oracle)
    requires forall j :: 0 <= j < |RSSHUB_INSTANCES| ==> !net1(j).Ok? && !net2(j).Ok?
    ensures FetchWithFailover(route, net1).result == FetchWithFailover(route, net2).result == Failed(ALL_FAILED, 503, 5)
  {
    assert FirstOk(net1, 0, 5) == 5;
    assert FirstOk(net2, 0, 5) == 5;
  }

  /** When every instance answers 503 or 502 the rotation never sleeps. */
  lemma UnavailableNeverSleeps(route: string, net: Oracle)
    requires forall j :: 0 <= j < |RSSHUB_INSTANCES| ==> net(j).Status? && (net(j).status == 503 || net(j).status == 502)
    ensures forall j :: 0 <= j < |FetchWithFailover(route, net).attempts| ==> FetchWithFailover(route, net).attempts[j].pause == None
  {
    assert FirstOk(net, 0, 5) == 5;
  }

  /** When every instance fails without a 503 or 502, the rotation sleeps 1000 ms after each of
      the five attempts, the last one included. */
  lemma OtherFailuresSleepEveryTime(route: string, net: Oracle)
    requires forall j :: 0 <= j < |RSSHUB_INSTANCES| ==> !net(j).Ok? && !(net(j).Status? && (net(j).status == 503 || net(j).status == 502))
    ensures |FetchWithFailover(route, net).attempts| == 5
    ensures forall j :: 0 <= j < 5 ==> FetchWithFailover(route, net).attempts[j].pause == Some(1000)
  {
    assert FirstOk(net, 0, 5) == 5;
  }
}
