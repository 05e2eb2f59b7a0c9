/** The single-shot fetcher of server.js: one GET against the deployed RSSHub
    instance, reporting the body or the error message and status. */
module SingleFetch {
  import opened Network

  const RSSHUB_BASE: string := "https://rsshub-production-82c7.up.railway.app"

  datatype FetchResult = Fetched(data: string) | Failed(error: string, status: int)

  /** `fetchFromRSSHub(route)`: exactly one request, to the base URL followed by the route. */
  function FetchOnce(route: string, net: Oracle): (r: Run<FetchResult>)
    ensures Urls(r.attempts) == [RSSHUB_BASE + route]
    ensures Delays(r.attempts) == []
    ensures r.result.Fetched? <==> net(0).Ok?
    ensures net(0).Ok? ==> r.result.data == net(0).body
    ensures !net(0).Ok? ==> r.result.error == net(0).message
    ensures !net(0).Ok? && net(0).Status? && net(0).status != 0 ==> r.result.status == net(0).status
    ensures !net(0).Ok? && !(net(0).Status? && net(0).status != 0) ==> r.result.status == 500
  {
    var attempts := [Attempt(RSSHUB_BASE + route, None)];
    match net(0)
    case Ok(body) => Run(Fetched(body), attempts)
    case _ => Run(Failed(net(0).message, StatusOr500(net(0))), attempts)
  }
}
