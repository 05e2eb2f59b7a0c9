/** The route handlers that use the fetchers: the company news route of
    server-improved.js, and the company news and search routes of server.js. A
    handler looks its argument up, makes the upstream request, and answers with a
    status and a body; the XML parser is a parameter. Each route is modelled as the
    code is written, and beside it as evidently intended: with the lookup that sees
    only the table's own entries, the failover loop that does fail over, and the cut
    that never shows more than 50 items. */
module Routes {
  import opened Network
  import Portfolio
  import RssFeed
  import Limits
  import SearchTerm
  import SingleFetch
  import ImprovedFailover

  const COMPANY_NOT_FOUND: string := "\U{015E}irket bulunamad\U{0131}"
  const FEED_UNREADABLE: string := "RSS verisi i\U{015F}lenemedi"
  const UNEXPECTED: string := "Beklenmeyen hata"
  const UPSTREAM_FAILED: string := "RSSHub'dan veri al\U{0131}namad\U{0131}"
  const QUERY_TOO_SHORT: string := "Arama terimi en az 2 karakter olmal\U{0131}d\U{0131}r"
  const SEARCH_FAILED: string := "Arama yap\U{0131}lamad\U{0131}"

  datatype Body =
    | UnknownCompany(error: string, availableCompanies: seq<string>)
    | BadRequest(error: string)
    | Failure(error: string, details: string)
    | UpstreamFailure(response: ImprovedFailover.ErrorResponse)
    | Xml(data: string)
    | News(news: seq<RssFeed.Item>, route: string)

  datatype Response = Response(status: nat, body: Body)

  /** A successful fetch: the raw XML when `format=xml`, otherwise the parsed items cut by
      `cut` with the default limit 10 and the cap 50, or 500 when the feed could not be read. */
  function Deliver(cut: Limits.Cut, data: string, route: string, limit: Option<string>, format: Option<string>,
                   parse: string -> RssFeed.Document): (resp: Response)
    ensures format == Some("xml") ==> resp == Response(200, Xml(data))
    ensures format != Some("xml") ==>
      var feed := RssFeed.ParseRSSFeed(parse(data));
      && (feed.FeedError? ==> resp == Response(500, Failure(FEED_UNREADABLE, feed.error)))
      && (feed.Feed? ==> resp == Response(200, News(Limits.CutItems(cut, feed.items, limit, 10, 50), route)))
  {
    if format == Some("xml") then Response(200, Xml(data))
    else
      match RssFeed.ParseRSSFeed(parse(data))
      case FeedError(e) => Response(500, Failure(FEED_UNREADABLE, e))
      case Feed(_, _, _, items) => Response(200, News(Limits.CutItems(cut, items, limit, 10, 50), route))
  }

  /** As written, a limit of -1 delivers every parsed item but the last, past the cap of 50. */
  lemma DeliverAllButLast(data: string, route: string, format: Option<string>, parse: string -> RssFeed.Document)
    requires format != Some("xml")
    requires RssFeed.ParseRSSFeed(parse(data)).Feed?
    requires |RssFeed.ParseRSSFeed(parse(data)).items| > 51
    ensures var items := RssFeed.ParseRSSFeed(parse(data)).items;
      && Deliver(Limits.AsWritten, data, route, Some("-1"), format, parse) == Response(200, News(items[..|items| - 1], route))
      && |items| - 1 > 50
  {
    var items := RssFeed.ParseRSSFeed(parse(data)).items;
    Limits.CutAllButLast(items, 10, 50);
  }

  function NotFoundResponse(): Response
  {
    Response(404, UnknownCompany(COMPANY_NOT_FOUND, Portfolio.Keys(Portfolio.PORTFOLIO_COMPANIES)))
  }

  /** `GET /api/news/:company` of server-improved.js, with the failover fetcher as intended. */
  function ImprovedNews(id: string, limit: Option<string>, format: Option<string>, net: Oracle,
                        parse: string -> RssFeed.Document): (r: Run<Response>)
    ensures Portfolio.LookupCompany(id).NotFound? ==> r.result == NotFoundResponse() && r.attempts == []
    ensures Portfolio.LookupCompany(id).Found? ==>
      var c := Portfolio.LookupCompany(id).company;
      var fetch := ImprovedFailover.Fetch(ImprovedFailover.RSSHUB_PRIMARY, ImprovedFailover.RSSHUB_FALLBACKS, Portfolio.NewsRoute(c), net);
      && r.attempts == fetch.attempts
      && (fetch.result.AllFailed? ==>
            r.result == Response(ImprovedFailover.HttpStatus(fetch.result.summary.MostCommonStatus()),
                                 UpstreamFailure(ImprovedFailover.CreateErrorResponse(fetch.result.summary, Portfolio.NewsRoute(c), Some(c)))))
      && (fetch.result.Fetched? ==> r.result == Deliver(Limits.Capped, fetch.result.data, Portfolio.NewsRoute(c), limit, format, parse))
  {
    ImprovedNewsFor(Portfolio.LookupCompany(id), limit, format, net, parse)
  }

  /** The route once the company has been looked up: 404 without a request, or the
      failover fetch of the company's news path and its outcome. */
  function ImprovedNewsFor(found: Portfolio.Lookup, limit: Option<string>, format: Option<string>, net: Oracle,
                           parse: string -> RssFeed.Document): (r: Run<Response>)
    ensures found.NotFound? <==> r.attempts == [] && r.result == NotFoundResponse()
    ensures found.Found? ==>
      var fetch := ImprovedFailover.Fetch(ImprovedFailover.RSSHUB_PRIMARY, ImprovedFailover.RSSHUB_FALLBACKS, Portfolio.NewsRoute(found.company), net);
      && r.attempts == fetch.attempts
      && (fetch.result.AllFailed? ==> r.result.status == ImprovedFailover.HttpStatus(fetch.result.summary.MostCommonStatus()))
      && (fetch.result.Fetched? ==> r.result == Deliver(Limits.Capped, fetch.result.data, Portfolio.NewsRoute(found.company), limit, format, parse))
  {
    match found
    case NotFound => Run(NotFoundResponse(), [])
    case Found(c) =>
      var route := Portfolio.NewsRoute(c);
      var fetch := ImprovedFailover.Fetch(ImprovedFailover.RSSHUB_PRIMARY, ImprovedFailover.RSSHUB_FALLBACKS, route, net);
      var resp := match fetch.result
        case AllFailed(s) =>
          Response(ImprovedFailover.HttpStatus(s.MostCommonStatus()), UpstreamFailure(ImprovedFailover.CreateErrorResponse(s, route, Some(c))))
        case Fetched(data, _, _, _, _) => Deliver(Limits.Capped, data, route, limit, format, parse);
      Run(resp, fetch.attempts)
  }

  /** The route answers 404 without any request for an unknown company, one of 429, 503 and
      500 when every instance failed, and otherwise at most 50 items. */
  lemma ImprovedNewsStatuses(id: string, limit: Option<string>, format: Option<string>, net: Oracle,
                             parse: string -> RssFeed.Document)
    ensures var r := ImprovedNews(id, limit, format, net, parse);
      && (r.result.status == 404 <==> Portfolio.LookupCompany(id).NotFound?)
      && (r.result.body.UpstreamFailure? ==> r.result.status in {429, 503, 500})
      && (r.result.body.News? ==> r.result.status == 200 && |r.result.body.news| <= 50)
  {
    ImprovedNewsForStatuses(Portfolio.LookupCompany(id), limit, format, net, parse);
  }

  lemma ImprovedNewsForStatuses(found: Portfolio.Lookup, limit: Option<string>, format: Option<string>, net: Oracle,
                                parse: string -> RssFeed.Document)
    ensures var r := ImprovedNewsFor(found, limit, format, net, parse);
      && (r.result.status == 404 <==> found.NotFound?)
      && (r.result.body.UpstreamFailure? ==> r.result.status in {429, 503, 500})
      && (r.result.body.News? ==> r.result.status == 200 && |r.result.body.news| <= 50)
  {
    match found
    case NotFound =>
      NotFoundIs404();
    case Found(c) =>
      var route := Portfolio.NewsRoute(c);
      var fetch := ImprovedFailover.Fetch(ImprovedFailover.RSSHUB_PRIMARY, ImprovedFailover.RSSHUB_FALLBACKS, route, net);
      if fetch.result.Fetched? {
        DeliverStatuses(fetch.result.data, route, limit, format, parse);
      }
  }

  lemma NotFoundIs404()
    ensures NotFoundResponse().status == 404
  {
  }

  /** The intended cut delivers 200 with at most 50 items, or 500 when the feed cannot be read. */
  lemma DeliverStatuses(data: string, route: string, limit: Option<string>, format: Option<string>,
                        parse: string -> RssFeed.Document)
    ensures var resp := Deliver(Limits.Capped, data, route, limit, format, parse);
      && (resp.status == 200 || resp.status == 500)
      && !resp.body.UpstreamFailure?
      && (resp.body.News? ==> resp.status == 200 && |resp.body.news| <= 50)
  {
  }

  /** The same route as written: the lookup sees `Object.prototype` members, whose missing
      `keywords` read as "undefined"; the fetcher throws on its first failure, which the
      route's catch block answers with 500; and a served feed is cut as the code cuts it. */
  function ImprovedNewsAsWritten(id: string, limit: Option<string>, format: Option<string>, net: Oracle,
                                 parse: string -> RssFeed.Document): (r: Run<Response>)
    ensures Portfolio.LookupAsWritten(id).Rejected404? ==> r.result == NotFoundResponse() && r.attempts == []
    ensures Portfolio.LookupAsWritten(id).Proceeds? ==>
      var route := Portfolio.NewsRouteAsWritten(Portfolio.LookupAsWritten(id).property);
      && r.attempts == [Attempt(ImprovedFailover.RSSHUB_PRIMARY + route, None)]
      && (!net(0).Ok? ==> r.result == Response(500, Failure(UNEXPECTED, ImprovedFailover.TIMEOUT_ID_UNDEFINED)))
      && (net(0).Ok? ==> r.result == Deliver(Limits.AsWritten, net(0).body, route, limit, format, parse))
  {
    match Portfolio.LookupAsWritten(id)
    case Rejected404 => Run(NotFoundResponse(), [])
    case Proceeds(p) =>
      var route := Portfolio.NewsRouteAsWritten(p);
      var fetch := ImprovedFailover.FetchAsWritten(ImprovedFailover.RSSHUB_PRIMARY, ImprovedFailover.RSSHUB_FALLBACKS, route, net);
      var resp := match fetch.result
        case Threw(m) => Response(500, Failure(UNEXPECTED, m))
        case Returned(AllFailed(s)) =>
          Response(ImprovedFailover.HttpStatus(s.MostCommonStatus()), UpstreamFailure(ImprovedFailover.CreateErrorResponse(s, route, None)))
        case Returned(Fetched(data, _, _, _, _)) => Deliver(Limits.AsWritten, data, route, limit, format, parse);
      Run(resp, fetch.attempts)
  }

  /** A primary that answers 503 while the first fallback serves the feed: the route as
      intended answers 200 with the fallback's feed. */
  lemma PrimaryOutageServedByFallback(id: string, limit: Option<string>, net: Oracle, parse: string -> RssFeed.Document)
    requires Portfolio.LookupCompany(id).Found?
    requires net(0).Status? && net(0).status == 503
    requires net(1).Ok?
    ensures ImprovedNews(id, limit, Some("xml"), net, parse).result == Response(200, Xml(net(1).body))
  {
    ImprovedFailover.FirstFallbackServes(Portfolio.NewsRoute(Portfolio.LookupCompany(id).company), net);
  }

  /** The same outage as written: the known company passes the lookup, and the fetcher's
      first failure surfaces as 500 with the ReferenceError. */
  lemma PrimaryOutageAsWritten(id: string, limit: Option<string>, net: Oracle, parse: string -> RssFeed.Document)
    requires Portfolio.LookupCompany(id).Found?
    requires net(0).Status? && net(0).status == 503
    requires net(1).Ok?
    ensures ImprovedNewsAsWritten(id, limit, Some("xml"), net, parse).result == Response(500, Failure(UNEXPECTED, ImprovedFailover.TIMEOUT_ID_UNDEFINED))
  {
    assert Portfolio.LookupAsWritten(id).Proceeds?;
  }

  /** The id "Constructor" is no company: as intended the route answers 404 without a request. */
  lemma ConstructorNotFound(limit: Option<string>, format: Option<string>, net: Oracle, parse: string -> RssFeed.Document)
    ensures ImprovedNews("Constructor", limit, format, net, parse).result.status == 404
    ensures ImprovedNews("Constructor", limit, format, net, parse).attempts == []
  {
    Portfolio.ConstructorEscapesNotFound();
  }

  /** As written, "Constructor" finds `Object.prototype.constructor` and the route asks the
      primary for the news about "undefined". */
  lemma ConstructorAsWritten(limit: Option<string>, format: Option<string>, net: Oracle, parse: string -> RssFeed.Document)
    ensures ImprovedNewsAsWritten("Constructor", limit, format, net, parse).attempts ==
      [Attempt(ImprovedFailover.RSSHUB_PRIMARY + (Portfolio.NEWS_PATH + "undefined"), None)]
  {
    Portfolio.ConstructorEscapesNotFound();
  }

  /** A served feed of more than 51 items with `limit=-1`: as written the route shows all of
      them but the last, past the cap of 50 it promises. */
  lemma ImprovedNewsAllButLast(id: string, format: Option<string>, net: Oracle, parse: string -> RssFeed.Document)
    requires Portfolio.LookupCompany(id).Found?
    requires net(0).Ok? && format != Some("xml")
    requires RssFeed.ParseRSSFeed(parse(net(0).body)).Feed?
    requires |RssFeed.ParseRSSFeed(parse(net(0).body)).items| > 51
    ensures var items := RssFeed.ParseRSSFeed(parse(net(0).body)).items;
      var r := ImprovedNewsAsWritten(id, Some("-1"), format, net, parse).result;
      && r.status == 200 && r.body.News?
      && r.body.news == items[..|items| - 1]
      && |r.body.news| > 50
  {
    assert Portfolio.LookupAsWritten(id).Proceeds?;
    var route := Portfolio.NewsRouteAsWritten(Portfolio.LookupAsWritten(id).property);
    DeliverAllButLast(net(0).body, route, format, parse);
  }

  /** One request with the single-shot fetcher of server.js, and what the news routes of
      server.js answer: 500 with the fetcher's message on failure, otherwise the delivery. */
  function SingleShotNews(cut: Limits.Cut, route: string, limit: Option<string>, format: Option<string>, net: Oracle,
                          parse: string -> RssFeed.Document): (r: Run<Response>)
    ensures Urls(r.attempts) == [SingleFetch.RSSHUB_BASE + route]
    ensures !net(0).Ok? ==> r.result == Response(500, Failure(UPSTREAM_FAILED, net(0).message))
    ensures net(0).Ok? ==> r.result == Deliver(cut, net(0).body, route, limit, format, parse)
  {
    var fetch := SingleFetch.FetchOnce(route, net);
    var resp := match fetch.result
      case Failed(e, _) => Response(500, Failure(UPSTREAM_FAILED, e))
      case Fetched(data) => Deliver(cut, data, route, limit, format, parse);
    Run(resp, fetch.attempts)
  }

  /** `GET /api/news/:company` of server.js as written: the lookup also finds
      `Object.prototype` members, and the items are cut as the code cuts them. */
  function CompanyNews(id: string, limit: Option<string>, format: Option<string>, net: Oracle,
                       parse: string -> RssFeed.Document): (r: Run<Response>)
    ensures Portfolio.LookupAsWritten(id).Rejected404? ==> r.result == NotFoundResponse() && r.attempts == []
    ensures Portfolio.LookupAsWritten(id).Proceeds? ==>
      var route := Portfolio.NewsRouteAsWritten(Portfolio.LookupAsWritten(id).property);
      && Urls(r.attempts) == [SingleFetch.RSSHUB_BASE + route]
      && (!net(0).Ok? ==> r.result == Response(500, Failure(UPSTREAM_FAILED, net(0).message)))
      && (net(0).Ok? ==> r.result == Deliver(Limits.AsWritten, net(0).body, route, limit, format, parse))
  {
    match Portfolio.LookupAsWritten(id)
    case Rejected404 => Run(NotFoundResponse(), [])
    case Proceeds(p) => SingleShotNews(Limits.AsWritten, Portfolio.NewsRouteAsWritten(p), limit, format, net, parse)
  }

  /** The same route as intended: 404 for every id that is not a company key, and at most
      50 items. */
  function CompanyNewsIntended(id: string, limit: Option<string>, format: Option<string>, net: Oracle,
                               parse: string -> RssFeed.Document): (r: Run<Response>)
    ensures Portfolio.LookupCompany(id).NotFound? ==> r.result == NotFoundResponse() && r.attempts == []
    ensures Portfolio.LookupCompany(id).Found? ==>
      var route := Portfolio.NewsRoute(Portfolio.LookupCompany(id).company);
      && Urls(r.attempts) == [SingleFetch.RSSHUB_BASE + route]
      && (!net(0).Ok? ==> r.result == Response(500, Failure(UPSTREAM_FAILED, net(0).message)))
      && (net(0).Ok? ==> r.result == Deliver(Limits.Capped, net(0).body, route, limit, format, parse))
  {
    match Portfolio.LookupCompany(id)
    case NotFound => Run(NotFoundResponse(), [])
    case Found(c) => SingleShotNews(Limits.Capped, Portfolio.NewsRoute(c), limit, format, net, parse)
  }

  /** The two agree on every company of the table whenever the limit is not negative. */
  lemma CompanyNewsAgreeOnCompanies(id: string, limit: Option<string>, format: Option<string>, net: Oracle,
                                    parse: string -> RssFeed.Document)
    requires Portfolio.LookupCompany(id).Found?
    requires !(Limits.ParseLimit(limit, 10).Some? && Limits.ParseLimit(limit, 10).value < 0)
    ensures CompanyNews(id, limit, format, net, parse) == CompanyNewsIntended(id, limit, format, net, parse)
  {
    var c := Portfolio.LookupCompany(id).company;
    assert Portfolio.LookupAsWritten(id) == Portfolio.Proceeds(Portfolio.Own(c));
    SingleShotAgrees(Portfolio.NewsRoute(c), limit, format, net, parse);
  }

  lemma SingleShotAgrees(route: string, limit: Option<string>, format: Option<string>, net: Oracle,
                         parse: string -> RssFeed.Document)
    requires !(Limits.ParseLimit(limit, 10).Some? && Limits.ParseLimit(limit, 10).value < 0)
    ensures SingleShotNews(Limits.AsWritten, route, limit, format, net, parse) == SingleShotNews(Limits.Capped, route, limit, format, net, parse)
  {
    if net(0).Ok? {
      DeliverAgrees(net(0).body, route, limit, format, parse);
    }
  }

  /** The two cuts deliver the same response for every limit that is not negative. */
  lemma DeliverAgrees(data: string, route: string, limit: Option<string>, format: Option<string>,
                      parse: string -> RssFeed.Document)
    requires !(Limits.ParseLimit(limit, 10).Some? && Limits.ParseLimit(limit, 10).value < 0)
    ensures Deliver(Limits.AsWritten, data, route, limit, format, parse) == Deliver(Limits.Capped, data, route, limit, format, parse)
  {
  }

  /** "Constructor": as written the route asks for the news about "undefined"; as intended
      it answers 404 without a request. */
  lemma CompanyNewsConstructor(limit: Option<string>, format: Option<string>, net: Oracle, parse: string -> RssFeed.Document)
    ensures Urls(CompanyNews("Constructor", limit, format, net, parse).attempts) ==
      [SingleFetch.RSSHUB_BASE + (Portfolio.NEWS_PATH + "undefined")]
    ensures CompanyNewsIntended("Constructor", limit, format, net, parse).result.status == 404
    ensures CompanyNewsIntended("Constructor", limit, format, net, parse).attempts == []
  {
    Portfolio.ConstructorEscapesNotFound();
  }

  /** As written, `limit=-1` shows every item of a long feed but the last; as intended the
      route never shows more than 50. */
  lemma CompanyNewsCap(id: string, format: Option<string>, net: Oracle, parse: string -> RssFeed.Document)
    requires Portfolio.LookupCompany(id).Found?
    requires net(0).Ok? && format != Some("xml")
    requires RssFeed.ParseRSSFeed(parse(net(0).body)).Feed?
    requires |RssFeed.ParseRSSFeed(parse(net(0).body)).items| > 51
    ensures var items := RssFeed.ParseRSSFeed(parse(net(0).body)).items;
      var r := CompanyNews(id, Some("-1"), format, net, parse).result;
      && r.status == 200 && r.body.News?
      && r.body.news == items[..|items| - 1]
      && |r.body.news| > 50
    ensures var r := CompanyNewsIntended(id, Some("-1"), format, net, parse).result;
      r == Response(200, News([], Portfolio.NewsRoute(Portfolio.LookupCompany(id).company)))
  {
    assert Portfolio.LookupAsWritten(id).Proceeds?;
    var route := Portfolio.NewsRouteAsWritten(Portfolio.LookupAsWritten(id).property);
    DeliverAllButLast(net(0).body, route, format, parse);
    Limits.ParseIntMinusOne();
  }

  /** `GET /api/search/:query` of server.js, with the items cut by `cut`: `AsWritten` is the
      code and `Capped` the evidently intended cut. A short query is refused before any
      request; otherwise the sanitised term is searched, and an unreadable feed shows no item. */
  function Search(cut: Limits.Cut, query: string, limit: Option<string>, net: Oracle,
                  parse: string -> RssFeed.Document): (r: Run<Response>)
    ensures Utf16Length(query) < 2 ==> r.result == Response(400, BadRequest(QUERY_TOO_SHORT)) && r.attempts == []
    ensures Utf16Length(query) >= 2 ==>
      && Urls(r.attempts) == [SingleFetch.RSSHUB_BASE + ("/google/news/" + SearchTerm.Sanitize(query))]
      && (!net(0).Ok? ==> r.result == Response(500, Failure(SEARCH_FAILED, net(0).message)))
      && (net(0).Ok? ==> r.result == Response(200, News(
            Limits.CutItems(cut, RssFeed.Items(RssFeed.ParseRSSFeed(parse(net(0).body))), limit, 20, 50),
            "/google/news/" + SearchTerm.Sanitize(query))))
  {
    match SearchTerm.Decide(query)
    case TooShort => Run(Response(400, BadRequest(QUERY_TOO_SHORT)), [])
    case Search(route) =>
      var fetch := SingleFetch.FetchOnce(route, net);
      var resp := match fetch.result
        case Failed(e, _) => Response(500, Failure(SEARCH_FAILED, e))
        case Fetched(data) => Response(200, News(Limits.CutItems(cut, RssFeed.Items(RssFeed.ParseRSSFeed(parse(data))), limit, 20, 50), route));
      Run(resp, fetch.attempts)
  }

  /** With the intended cut the search shows at most 20 items without a limit and never
      more than 50 with one. */
  lemma SearchShowsAtMostTheCap(query: string, limit: Option<string>, net: Oracle, parse: string -> RssFeed.Document)
    ensures var r := Search(Limits.Capped, query, limit, net, parse).result;
      && (r.body.News? ==> |r.body.news| <= 50)
      && (r.body.News? && limit.None? ==> |r.body.news| <= 20)
  {
  }

  /** As written, `limit=-1` shows every item of a long feed but the last. */
  lemma SearchAllButLast(query: string, net: Oracle, parse: string -> RssFeed.Document)
    requires Utf16Length(query) >= 2
    requires net(0).Ok?
    requires |RssFeed.Items(RssFeed.ParseRSSFeed(parse(net(0).body)))| > 51
    ensures var items := RssFeed.Items(RssFeed.ParseRSSFeed(parse(net(0).body)));
      var r := Search(Limits.AsWritten, query, Some("-1"), net, parse).result;
      && r.status == 200 && r.body.News?
      && r.body.news == items[..|items| - 1]
      && |r.body.news| > 50
  {
    var items := RssFeed.Items(RssFeed.ParseRSSFeed(parse(net(0).body)));
    Limits.CutAllButLast(items, 20, 50);
  }
}
