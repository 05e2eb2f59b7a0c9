# Upstream-fetch policy of the RSS news API

The API serves company and sector news by asking an RSSHub aggregator for Google
News feeds. It exists in four variants, and they differ in how they talk to
upstream. This project models each variant's fetch policy: which instances it
asks, in what order, how long it sleeps between tries, and what it reports when
every attempt fails. It also models the small pure pieces the routes of
`server.js` build on:

- the static company and sector tables, and the case-insensitive lookup;
- the search-term sanitiser and its length check;
- `parseInt` and the clamping of the `limit` parameter;
- the field defaulting that `parseRSSFeed` applies after XML parsing;
- the route handlers that combine these pieces.

The network is an oracle: `net(i)` is the outcome of the request with 0-based
index `i`. An outcome is one of:

- `Ok(body)`: a 2xx answer;
- `Status(status, code, message)`: a response axios rejected;
- `NetErr(code, message)`: no response at all.

Every fetcher is a pure function that returns its result together with its trace.
The trace holds one `Attempt(url, pause)` per request, where `pause` is the sleep
taken after that request. `Delays` reads the sleep schedule off a trace.

| module | file | models |
|---|---|---|
| `Network` | network.dfy | outcomes, traces, `FirstOk`, the status key `status \|\| 'NETWORK_ERROR'`, JavaScript string length |
| `StatusTally` | status_tally.dfy | the `errorCounts` tally, `Object.entries` order, the stable sort by count, the most common status |
| `ImprovedFailover` | improved_failover.dfy | `fetchFromRSSHub` and `createErrorResponse` of server-improved.js, as intended and as written |
| `ServerFailover` | server_failover.dfy | `fetchFromRSSHub` of server-failover.js |
| `FailoverLogic` | failover_logic.dfy | `fetchFromRSSHubWithFailover` of failover-logic.js |
| `RetryLogic` | retry_logic.dfy | `fetchFromRSSHub` of retry-logic.js |
| `SingleFetch` | single_fetch.dfy | `fetchFromRSSHub` of server.js |
| `Portfolio` | portfolio.dfy | `PORTFOLIO_COMPANIES`, `SECTORS`, the company lookup, as intended and as written |
| `SearchTerm` | search_term.dfy | the search route's length check and sanitiser |
| `Limits` | limits.dfy | `parseInt`, `Math.min`, `Array.prototype.slice` on the item lists |
| `RssFeed` | rss_feed.dfy | `parseRSSFeed` applied to the parser's output |
| `Routes` | routes.dfy | the company news route of server-improved.js, and the company news and search routes of server.js, each as written and as corrected: `ImprovedNewsAsWritten`, `CompanyNews` and `Search(AsWritten, …)` are the code; `ImprovedNews`, `CompanyNewsIntended` and `Search(Capped, …)` are the corrected routes |

The model follows the code in three places where its names or comments could be read
another way:

- **Tie-breaks for the most common status.** server-improved.js:95 introduces the tally
  as determining "the most common error", and lines 102-103 call the result
  `mostCommonError`. Neither says how a tie is broken. The code sorts the
  `Object.entries` listing stably by count and takes the first entry. `Object.entries`
  lists keys that are array indices first, in ascending numeric order, and then the
  other keys in insertion order. So the first occurrence does not decide a tie.
  - `StatusTally.TieGoesToSmallerStatus` shows that 429 beats an earlier 503.
  - `StatusTally.TieGoesToNumericStatus` shows that a status beats an earlier `NETWORK_ERROR`.
- **`retries < 1` in retry-logic.js.** The loop never runs, and the function returns
  `undefined`. The model returns `NoResult` rather than excluding such calls.
- **The failover fetcher of server-improved.js as written.** It never fails over (see
  Findings). `ImprovedFailover.Fetch` models the intended catch block, and
  `ImprovedFailover.FetchAsWritten` models the code.

## Model

| member | source | states |
|---|---|---|
| Network.KeyOf | server-improved.js:59 | a failure is filed under its response status when it has a non-zero one, and under NETWORK_ERROR otherwise |
| Network.StatusOr500 | server.js:163 | the reported status is the response status when there is a truthy one, else 500 |
| Network.Utf16Length | server-improved.js:51 | `responseSize` counts UTF-16 units: between one and two per character |
| StatusTally.TallyOf | server-improved.js:96-100 | the tally holds exactly the recorded keys, each with its number of occurrences, listed in order of first occurrence |
| StatusTally.EntriesOfTally | server-improved.js:102 | `Object.entries` lists every recorded key once, with its count, array-index keys ascending and then the rest by first occurrence |
| StatusTally.SortByCount | server-improved.js:102-103 | the sort keeps the number of entries and puts their counts in descending order |
| StatusTally.SortByCountPermutes | server-improved.js:102-103 | the sort is a permutation of the entries: none is lost and none is added |
| StatusTally.SortByCountHead | server-improved.js:102-103 | the stable sort puts the first entry of greatest count in front |
| StatusTally.MostCommon | server-improved.js:102-103 | with no record the status is '503'; otherwise it is one of the recorded keys |
| StatusTally.MostCommonIsFirstMaximal | server-improved.js:96-103 | the most common status is a recorded key of greatest count that `Object.entries` lists before every other key of that count; '503' when nothing was recorded |
| StatusTally.TieGoesToNumericStatus | server-improved.js:96-103 | in a one-to-one tie, a numeric status beats a NETWORK_ERROR recorded before it |
| StatusTally.TieGoesToSmallerStatus | server-improved.js:96-103 | in a one-to-one tie between 503 and 429, 429 wins although 503 came first |
| StatusTally.MajorityWins | server-improved.js:96-103 | two 503s outweigh one 429 |
| Portfolio.Keys | server.js:252 | `Object.keys` lists the table's keys in order, one per entry |
| Portfolio.Find | server.js:246 | an own property is found exactly when its key is among the table's keys, and the value found is that entry's |
| Portfolio.ToLower | server.js:246 | lower-casing keeps the length and maps each character on its own |
| Portfolio.LookupCompany | server.js:246-254 | an id is unknown, and answered with 404, exactly when its lower-cased form is not a key of the company table; otherwise the company under that key is used |
| Portfolio.LookupIgnoresCase | server.js:246 | two ids that differ only in the case of their letters find the same company |
| Portfolio.LookupAsWritten | server.js:281-289 | as written, the 404 is skipped exactly when the lower-cased id is a company key or an `Object.prototype` member |
| Portfolio.ConstructorEscapesNotFound | server.js:281-289 | "Constructor" names no company, yet as written it passes the 404 check, while the intended lookup rejects it |
| Portfolio.NewsRoute | server.js:291 | the route is the news path followed by the company's keywords and nothing else |
| Portfolio.NewsRouteAsWritten | server.js:281-291 | an own entry of the table gives its news route; an `Object.prototype` member has no keywords, so the path ends in "undefined" |
| Portfolio.CompanyIds | server.js:33-82 | the company ids are nvidia, tsmc, ionq, xpeng, qubt, dwave, rigetti and pony, in that order |
| Portfolio.SectorMembersAreCompanies | server.js:85-111 | every company a sector lists is a key of the company table |
| Portfolio.TechStocksListsEveryCompany | server.js:106-110 | the tech-stocks sector lists every company id, in table order |
| Portfolio.CompanySectorListsIt | server.js:33-111 | every company's sector exists and lists that company |
| SingleFetch.FetchOnce | server.js:144-166 | exactly one request, to the base URL plus the route, with no sleep; success returns the body unchanged; failure returns the error message and the response status, or 500 without one |
| RetryLogic.RetryDelay | retry-logic.js:22 | every backoff lies between 1000 and 5000 ms |
| RetryLogic.RetryDelayMonotone | retry-logic.js:22 | the backoff after a later attempt is never shorter |
| RetryLogic.RetryDelayValues | retry-logic.js:22 | the backoffs are 1000, 2000 and 4000 ms, then 5000 ms for every later attempt |
| RetryLogic.RetryFrom | retry-logic.js:3-34 | every attempt asks the same URL; the loop stops at the first success and returns its body; each failed attempt except the last sleeps for its backoff; exhaustion reports the last error with `attempt = retries` |
| RetryLogic.Retry | retry-logic.js:2-37 | with `retries < 1` no request is made and nothing is returned; otherwise between 1 and `retries` requests are made, all to the base URL plus the route |
| RetryLogic.RetryStopsAtFirstSuccess | retry-logic.js:3-16 | when attempt `k` is the first success, exactly `k + 1` requests are made and its body is returned |
| RetryLogic.RetryExhausted | retry-logic.js:21-34 | when every attempt fails, `retries` requests are made and only the last one's message and status (500 without a response) are reported |
| RetryLogic.RetrySleeps | retry-logic.js:21-26 | there is one sleep fewer than attempts, so at most `retries - 1`; the i-th is the backoff of attempt i+1; the sleeps never decrease and never exceed 5000 ms |
| RetryLogic.RetryPauses | retry-logic.js:21-26 | every attempt but the last made sleeps for the backoff of its own number, and the last attempt does not sleep |
| RetryLogic.DefaultTotalFailure | retry-logic.js:2-34 | with the default of three tries, a total failure makes three requests, sleeps 1000 ms and then 2000 ms, and reports attempt 3 |
| RetryLogic.OneRetryIsSingleFetch | retry-logic.js:2-37 | with a single try, the request and the result agree with the single-shot fetcher of server.js |
| FailoverLogic.PauseAfter | failover-logic.js:31-38 | no sleep exactly after a 503 or 502 answer, and 1000 ms after any other failure |
| FailoverLogic.TryFrom | failover-logic.js:12-40 | the instances are asked in listed order up to the first success, which is served with its base URL; each failure pauses as `PauseAfter` says, the last one included; total failure is 503 with the instance count |
| FailoverLogic.FetchWithFailover | failover-logic.js:11-48 | between one and five requests, in listed order; the result is served exactly when some instance answers 2xx |
| FailoverLogic.FirstSuccessServes | failover-logic.js:12-26 | when instance `k` is the first to answer, exactly `k + 1` requests are made and it serves the body |
| FailoverLogic.FailureCarriesNoDetail | failover-logic.js:42-47 | every total failure is the same value, status 503 with 5 tried instances, whatever the errors were |
| FailoverLogic.UnavailableNeverSleeps | failover-logic.js:32-34 | when every instance answers 503 or 502, no sleep is taken |
| FailoverLogic.OtherFailuresSleepEveryTime | failover-logic.js:36-38 | when every failure is something other than 503 or 502, all five attempts sleep 1000 ms, the last one included |
| ServerFailover.ErrorFor | server-failover.js:38-43 | the record names the instance, counts attempt i+1, carries the message, and is filed as NETWORK_ERROR exactly when no truthy status came back |
| ServerFailover.ErrorsFrom | server-failover.js:38-45 | one record per failed instance, in order, each with its 1-based attempt number |
| ServerFailover.TryFrom | server-failover.js:13-53 | the instances are asked in order up to the first success; a 1500 ms sleep follows every failure but the last instance's; the records of all failures are kept on exhaustion |
| ServerFailover.Fetch | server-failover.js:10-64 | the first success is returned with its instance and 1-based attempt; total failure is 503 with one record per instance and `totalAttempts = 4` |
| ServerFailover.TotalFailureRecords | server-failover.js:38-63 | on total failure there are four records, each naming its instance, attempt number and message, with NETWORK_ERROR exactly when there was no truthy status |
| ServerFailover.FixedSleeps | server-failover.js:48-51 | the sleeps are 1500 ms each, one fewer than the attempts made |
| ImprovedFailover.ErrorFor | server-improved.js:57-64 | the record names the instance, counts attempt i+1, is primary exactly for attempt 1, carries the message, files the status as `KeyOf` does, and keeps a non-empty error code, the outcome's own one when it has one |
| ImprovedFailover.Backoff | server-improved.js:82-88 | no sleep exactly after the last instance; otherwise the sleep is 3000 ms exactly after the primary and 1000 ms exactly after a fallback |
| ImprovedFailover.ErrorsFrom | server-improved.js:57-66 | one record per failed instance, in visit order, each naming its instance, 1-based attempt and primary flag |
| ImprovedFailover.Instances | server-improved.js:12 | the instances are the primary followed by the fallbacks, in order |
| ImprovedFailover.Rotate | server-improved.js:15-90 | the instances are asked in order up to the first 2xx; the pause after a failure is 3000 ms at the primary, 1000 ms at a fallback, and none after the last instance or the success; on exhaustion every failure is recorded |
| ImprovedFailover.Fetch | server-improved.js:11-118 | the result is a success exactly when some instance answers 2xx; the first to answer gives the data, instance, 1-based attempt, primary flag and response size; otherwise the summary of every failure |
| ImprovedFailover.FetchTrace | server-improved.js:15-88 | the URLs asked are the instances up to the first success, in order, each followed by the pause its position dictates |
| ImprovedFailover.FirstSuccessWins | server-improved.js:15-52 | when instance `k` is the first to answer, exactly instances 0..k are asked, and the result names instance `k`, attempt `k + 1` and `isPrimary` exactly when `k = 0` |
| ImprovedFailover.FirstFallbackServes | server-improved.js:3-52 | with the configured instances, a failing primary and an answering first fallback give the fallback's body as attempt 2 |
| ImprovedFailover.TotalFailureRecordsEveryAttempt | server-improved.js:57-111 | on total failure every instance is asked once, in order; there is one record per instance with its attempt number, message, primary flag and status or NETWORK_ERROR; `totalAttempts` is the instance count |
| ImprovedFailover.BackoffDependsOnlyOnPosition | server-improved.js:82-88 | the sleep after attempt j is 3000 ms for the primary and 1000 ms otherwise, and there is none after the last attempt made |
| ImprovedFailover.SleepsIgnoreErrorKind | server-improved.js:82-88 | two networks that fail at the same positions give the same sleeps, whatever the errors are |
| ImprovedFailover.PrimaryWaitsLonger | server-improved.js:82-88 | a sleep after the primary is longer than any sleep after a fallback |
| ImprovedFailover.Suggestion | server-improved.js:112-116 | the "try again" advice exactly for 503, the "reduce frequency" advice exactly for 429, and the "check your connection" advice exactly for every other status |
| ImprovedFailover.HttpStatus | server-improved.js:173-174 | the route answers 429 exactly for 429 and 503 exactly for 503; every other status answers 500, and those are exactly the ones advised to check the connection |
| ImprovedFailover.Summarise | server-improved.js:105-117 | the summary keeps every record and the attempt count under the fixed error text; `primaryError` is the first record's message when that is non-empty, and the fixed text otherwise |
| ImprovedFailover.SummaryClassifiesFailures | server-improved.js:96-116 | the summarised status is a recorded status of greatest count, ties going as `Object.entries` lists them; `primaryError` is the first record's message; the suggestion and the route's HTTP status follow from that status |
| ImprovedFailover.MajorityOf503IsUnavailable | server-improved.js:96-116 | failures of 503, 503 and 429 are filed as 503, with the "try again" suggestion and HTTP 503 |
| ImprovedFailover.CreateErrorResponse | server-improved.js:121-147 | `details` is `primaryError` or else `error`; `company` is present exactly when given; `suggestion` is present exactly when non-empty; `meta` is present exactly when `totalAttempts` is non-zero; `canRetry` holds exactly when the status is not 404 |
| ImprovedFailover.ErrorResponseOfTotalFailure | server-improved.js:105-147 | a total failure's error response has the primary's message as details, a suggestion, and meta counting every instance; it offers a retry exactly when the status is not 404 |
| ImprovedFailover.AllNotFoundCannotRetry | server-improved.js:102-147 | when every instance answers 404, the status is 404, the route answers 500, the suggestion is "check your connection", and no retry is offered |
| ImprovedFailover.FetchAsWritten | server-improved.js:19-55 | as written, one request is made; it throws a ReferenceError about `timeoutId` exactly when the primary fails |
| ImprovedFailover.AsWrittenNeverFailsOver | server-improved.js:24-55 | the code as written agrees with the intended fetcher when the primary answers; when it fails, the code throws where the intended loop asks a fallback |
| ImprovedFailover.SecondMirrorServes | server-improved.js:54-88 | mirror A answering 503 and mirror B answering: as intended, B's body comes back as attempt 2 after one 3000 ms sleep; as written, the fetcher throws |
| SearchTerm.CollapseSpaces | server.js:489 | replacing whitespace runs leaves no whitespace, never lengthens the query, and keeps its letters and digits in order |
| SearchTerm.KeepAllowed | server.js:489 | deleting disallowed characters leaves only `[A-Za-z0-9+]`, never lengthens the query, and keeps its letters and digits in order |
| SearchTerm.Sanitize | server.js:489 | the term holds only `[A-Za-z0-9+]`, is no longer than the query, and keeps the query's letters and digits in order |
| SearchTerm.AllowedIsFixpoint | server.js:489 | a string of allowed characters is left unchanged by both replacements |
| SearchTerm.SanitizeIdempotent | server.js:489 | sanitising twice is sanitising once |
| SearchTerm.SanitizeFixpoints | server.js:489 | a query is its own sanitised term exactly when it holds only allowed characters |
| SearchTerm.CollapseWithoutSpaces | server.js:489 | without whitespace, the first replacement changes nothing |
| SearchTerm.OnlyPunctuationVanishes | server.js:489 | a query of characters that are neither allowed nor whitespace sanitises to the empty term |
| SearchTerm.Decide | server.js:480-490 | the query is refused exactly when its JavaScript length is below 2; otherwise the route is the news path plus the sanitised term |
| SearchTerm.PunctuationSearchesForNothing | server.js:480-490 | "!!" passes the length check and searches for the empty term, with no second check |
| SearchTerm.AstralCharacterPassesLengthCheck | server.js:480-490 | one character outside the Basic Multilingual Plane has length 2, passes the length test, and is deleted |
| SearchTerm.SpacesJoinWords | server.js:489 | "a \t b" becomes "a+b": a whitespace run of any length becomes one '+' |
| Limits.DigitPrefix | server.js:315 | `parseInt` reads the longest run of leading digits |
| Limits.TrimStart | server.js:315 | `parseInt` reads from a suffix of the text that does not start with whitespace |
| Limits.ParseUnsignedOfDigits | server.js:315 | a string of decimal digits is read as the number it denotes |
| Limits.ParseIntUnsigned | server.js:315 | text that starts with neither whitespace nor a sign is read unsigned |
| Limits.ParseIntNegative | server.js:315 | a leading minus negates the reading of the rest |
| Limits.ParseIntOfDigits | server.js:315 | a decimal numeral is read as its value |
| Limits.ParseIntDecimal | server.js:315 | `parseInt(String(n))` is `n` for every integer `n` |
| Limits.ParseIntSkipsSpace | server.js:315 | a leading whitespace character does not change the reading |
| Limits.ParseIntStopsAtJunk | server.js:315 | "12abc" reads as 12 |
| Limits.ParseIntHex | server.js:315 | "0x1F" reads as 31 |
| Limits.ParseIntNaN | server.js:315 | "abc" and "" are NaN |
| Limits.ParseInt | server.js:315 | `parseInt` skips leading whitespace and one sign and reads the unsigned numeral after them: NaN exactly when no numeral follows, negated after a minus |
| Limits.Min | server.js:315 | `Math.min` with a cap: NaN stays NaN; otherwise the result is the smaller of the two |
| Limits.Slice | server.js:315 | `slice(0, end)` is a prefix: `end` items for a non-negative `end`, all but the last `-end` for a negative one, none for NaN |
| Limits.ParseLimit | server.js:279 | an absent `limit` takes the route's default |
| Limits.Shown | server.js:315 | the code's cut keeps a prefix of the items: none for a NaN limit, `min(n, cap, items)` items for a limit `n` of at least 0, and for a negative limit all but the last `-n` |
| Limits.ShownNonNegative | server.js:315 | a non-negative limit `n` shows the first `min(n, cap, items)` items |
| Limits.ShownDefault | server.js:279-315 | without a limit, the first `min(default, cap, items)` items are shown |
| Limits.NonNumericLimitShowsNothing | server.js:315 | a limit that is not a number shows no item |
| Limits.NegativeLimitDropsFromEnd | server.js:315 | a limit of `-d` drops the last `d` items |
| Limits.NegativeLimitExceedsCap | server.js:315 | a limit of -1 shows all items but the last, more than the cap whenever there are at least cap + 2 items |
| Limits.ShownCapped | server.js:315 | the intended cut shows a prefix of at most `cap` items, none for a negative limit, and otherwise agrees with the code |
| Limits.CutItems | server.js:315 | either cut keeps a prefix of the items, and the capped one keeps at most `cap` |
| Limits.CutAllButLast | server.js:315 | as written, a limit of -1 keeps every item but the last |
| Limits.TotalShown | server.js:405 | `totalLimit` keeps a prefix; absent, NaN or 0 keep everything, and a positive value keeps that many |
| RssFeed.Child | server.js:124-134 | a child array exists exactly when the value is an element that has that child |
| RssFeed.First | server.js:124-134 | `?.[0]` is the first element of a non-empty array and undefined otherwise |
| RssFeed.OrEmpty | server.js:124-134 | `\|\| ''` gives '' exactly for undefined or empty text, the text for other text, and the element itself for an element |
| RssFeed.GuidOf | server.js:133 | the guid is the element's `_` text when that is non-empty, and otherwise `guid?.[0] \|\| ''` |
| RssFeed.MapItem | server.js:128-135 | each of the six fields is read from its own child |
| RssFeed.ParseRSSFeed | server.js:114-141 | an error exactly when the parser failed, returned null, or found no truthy channel, with 'Failed to parse RSS feed' or 'Invalid RSS format' respectively; otherwise one item per `item` child, in order, and the channel's title, description and link |
| RssFeed.MissingFieldsDefaultToEmpty | server.js:129-134 | a field is '' exactly when its element is missing or empty |
| RssFeed.TextItemIsBlank | server.js:128-135 | an item that is bare text has all six fields '' |
| RssFeed.GuidPrefersText | server.js:133 | a guid with attributes yields its text, not the parser's object |
| RssFeed.WhichErrors | server.js:117-140 | a non-rss root or a missing channel is an invalid format; a blank document fails to parse; an error carries no items |
| Routes.Deliver | server-improved.js:179-193 | `format=xml` sends the body as it is; otherwise an unreadable feed answers 500 with 'RSS verisi işlenemedi', and a readable one answers 200 with its items cut by the chosen cut, with default limit 10 and cap 50 |
| Routes.DeliverAllButLast | server-improved.js:183-193 | with the code's cut, `limit=-1` delivers every parsed item but the last, which is more than 50 when the feed holds more than 51 |
| Routes.DeliverAgrees | server.js:315 | the code's cut and the capped cut deliver the same response for every limit that is absent, NaN or not negative |
| Routes.ImprovedNews | server-improved.js:150-221 | as corrected: an id that is not a company key is answered with 404 and no request; otherwise the failover fetcher's trace is the route's; a total failure answers the status mapped from the most common status, with the error response; a success is delivered with the capped cut |
| Routes.ImprovedNewsFor | server-improved.js:154-193 | 404 with no request exactly when the lookup found nothing; otherwise the trace is the failover fetch of the company's news path, a total failure answers `HttpStatus` of the most common status, and a success is delivered with the capped cut |
| Routes.ImprovedNewsStatuses | server-improved.js:154-193 | 404 exactly for unknown companies; upstream failures answer 429, 503 or 500; news lists hold at most 50 items |
| Routes.ImprovedNewsAsWritten | server-improved.js:150-221 | as written: an id the lookup rejects answers 404 with no request; otherwise exactly one request, to the primary, for the found entry's path; its failure answers 500 'Beklenmeyen hata' with the ReferenceError, and its success is delivered with the code's cut |
| Routes.PrimaryOutageServedByFallback | server-improved.js:167-180 | with the primary answering 503 and the first fallback answering, the route as intended sends the fallback's XML with 200 |
| Routes.PrimaryOutageAsWritten | server-improved.js:211-219 | in the same outage, the route as written answers 500 with the ReferenceError |
| Routes.ConstructorNotFound | server-improved.js:154-161 | "Constructor" is answered with 404 and no request |
| Routes.ConstructorAsWritten | server-improved.js:154-167 | as written, "Constructor" asks the primary for the news about "undefined" |
| Routes.ImprovedNewsAllButLast | server-improved.js:193 | for a company whose primary serves more than 51 items, `limit=-1` answers 200 as written with every item but the last, past the cap of 50 |
| Routes.SingleShotNews | server.js:290-315 | one request to the base URL plus the route; a failure answers 500 'RSSHub'dan veri alınamadı' with the fetcher's message; a success is delivered with the chosen cut |
| Routes.CompanyNews | server.js:277-338 | as written: an id the lookup rejects answers 404 with no request; otherwise one request to the base URL for the found entry's path, which names "undefined" for an `Object.prototype` member; a failure answers 500 with the fetcher's message; a success is delivered with the code's cut |
| Routes.CompanyNewsIntended | server.js:277-338 | as corrected: 404 with no request for every id that is not a company key; otherwise the same request and answers as the code, with the capped cut |
| Routes.CompanyNewsAgreeOnCompanies | server.js:281-315 | for a company of the table and a limit that is not negative, the route as written and as corrected give the same trace and answer |
| Routes.CompanyNewsConstructor | server.js:281-292 | "Constructor" makes the code ask for the news about "undefined", while the corrected route answers 404 without a request |
| Routes.CompanyNewsCap | server.js:315 | `limit=-1` on a feed of more than 51 items: as written, 200 with every item but the last, past the cap of 50; as corrected, 200 with no item |
| Routes.Search | server.js:476-525 | with either cut: a query of JavaScript length below 2 answers 400 with no request; otherwise one request for the news path plus the sanitised term; a failure answers 500 with the message; a success answers 200 with the items cut with default limit 20 and cap 50, none when the feed is unreadable |
| Routes.SearchShowsAtMostTheCap | server.js:478-502 | with the corrected cut, the search shows at most the cap of 50 that `Math.min(parseInt(limit), 50)` sets, and at most the default of 20 without a limit |
| Routes.SearchAllButLast | server.js:502 | as written, `limit=-1` on a feed of more than 51 items answers 200 with every item but the last, past the cap of 50 |

## Left out

- Logging, request headers, timeouts and `AbortController`: they do not change what is asked or returned, and timeouts appear only as network failures in the oracle.
- Real sleeping: each sleep appears as the `pause` of the attempt it follows.
- Express routing, the middleware (helmet, compression, CORS, rate limiter) and response writing: framework glue. Responses keep only their status and the body fields the contracts talk about.
- The shadowing of `/api/news/all` by `/api/news/:company`: a routing concern.
- The XML parser (xml2js): a foreign library. Its output is a parameter of the routes (`parse`), in the shape it produces.
- Timestamps (`timestamp`, `lastUpdated`, `fetchedAt`): they come from the clock.
- The all-news route's concurrency (`Promise.allSettled`) and its date sort: the sort uses `Date` parsing and floating-point subtraction. The route's per-company cut is `Limits.Shown` with cap 20, and its total cut is `Limits.TotalShown`.
- The companies, sector, feed, sectors and health routes and test.js: they make no policy decision beyond a lookup and a cut. Their lookups at server.js:246, 427 and 530 index the table directly, the prototype-seeing kind that `Portfolio.LookupAsWritten` models; `Portfolio.LookupCompany` and `Portfolio.Find` are the corrected lookups. The health route reads process state, and test.js drives a live server.
- The `limit` echoed in response meta: it is the same `parseInt` reading that `Limits.ParseInt` models.
- Repeated query parameters, which Express delivers as arrays: every parameter is taken as one string or as absent.
- Portfolio.ToLower: lower-cases only A-Z and U+212A KELVIN SIGN. These are the only characters whose lower case is a single ASCII letter, so no other character can make a lookup match a key.
- Limits.ParseInt: reads into an unbounded integer. JavaScript loses precision above 2^53, and `-0` is read as 0, which no slice or comparison tells apart.
- Network.Utf16Length: `response.data` is taken to be a string. axios could hand over a parsed object for a JSON answer, which the feed endpoints do not send.
- Routes.CompanyNews: the catch block answering 500 'Haber verisi alınamadı' is left out. The fetcher and the feed mapping catch their own errors, so it is not reached by anything modelled here.

## Findings

| source | as written | input that shows it | evidently intended | confidence | as-written member | corrected member |
|---|---|---|---|---|---|---|
| server-improved.js:55 | the catch block reads `timeoutId`, a `const` of the `try` block, so every failure throws a ReferenceError; the route answers 500 and no fallback is ever asked | primary answers 503, first fallback answers 200 | record the failure, sleep 3000 ms, and serve the first fallback's feed | not executed | ImprovedFailover.FetchAsWritten, ImprovedFailover.SecondMirrorServes, Routes.PrimaryOutageAsWritten | ImprovedFailover.Fetch, Routes.PrimaryOutageServedByFallback |
| server.js:281 | `PORTFOLIO_COMPANIES[id.toLowerCase()]` also finds `Object.prototype` members, which are truthy, so no 404 is sent and the upstream is asked about "undefined" | `GET /api/news/Constructor` | 404 for any id that is not a company key | not executed | Portfolio.LookupAsWritten, Portfolio.ConstructorEscapesNotFound, Routes.ConstructorAsWritten, Routes.CompanyNewsConstructor | Portfolio.LookupCompany, Routes.ConstructorNotFound, Routes.CompanyNewsIntended |
| server.js:315 | `slice(0, Math.min(parseInt(limit), 50))` with a negative limit counts from the end, so the cap does not hold | `limit=-1` with 60 items shows 59 | at most 50 items, none for a negative limit | not executed | Limits.NegativeLimitExceedsCap, Routes.CompanyNewsCap, Routes.ImprovedNewsAllButLast, Routes.SearchAllButLast | Limits.ShownCapped, Routes.CompanyNewsIntended, Routes.SearchShowsAtMostTheCap |

The same lookup is at server.js:246, 427 and 530, and at server-improved.js:154. The
same cut is at server.js:343-364, 450 and 502, and at server-improved.js:193. Each
route modelled here exists twice: `Routes.ImprovedNewsAsWritten`, `Routes.CompanyNews`
and `Routes.Search(AsWritten, …)` use the members as written, and `Routes.ImprovedNews`,
`Routes.CompanyNewsIntended` and `Routes.Search(Capped, …)` use the corrected ones.
