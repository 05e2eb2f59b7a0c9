/** Shared vocabulary of the upstream fetchers: the outcome oracle that stands
    in for the network, the per-attempt trace every fetcher emits, and the key
    under which a failed attempt is filed. */
module Network {

  datatype Option<+T> = None | Some(value: T)

  /** What one HTTP GET produced.
      - `Ok` is a response that passed axios's status validation (2xx);
      - `Status` is a response axios rejected, so its status lies outside 200..299;
      - `NetErr` is a failure without any response (timeout, refused connection, ...).
      `code` is axios's `error.code`, with "" standing for an absent code. */
  datatype Outcome =
    | Ok(body: string)
    | Status(status: int, code: string, message: string)
    | NetErr(code: string, message: string)

  /** The network as an oracle: the outcome of the attempt with the given 0-based index. */
  type Oracle = nat -> Outcome

  /** One request a fetcher made: the URL it asked for and the sleep (in ms) it took after it. */
  datatype Attempt = Attempt(url: string, pause: Option<nat>)

  /** What a fetcher returns, together with the trace of requests it made. */
  datatype Run<+R> = Run(result: R, attempts: seq<Attempt>)

  function Urls(attempts: seq<Attempt>): (r: seq<string>)
    ensures |r| == |attempts|
    ensures forall j :: 0 <= j < |r| ==> r[j] == attempts[j].url
  {
    seq(|attempts|, j requires 0 <= j < |attempts| => attempts[j].url)
  }

  /** A trace asked for `urls` when its attempts name them one by one. */
  lemma UrlsAre(attempts: seq<Attempt>, urls: seq<string>)
    requires |attempts| == |urls|
    requires forall j :: 0 <= j < |urls| ==> attempts[j].url == urls[j]
    ensures Urls(attempts) == urls
  {
  }

  /** The sleeps of a trace, in the order they were taken. */
  function Delays(attempts: seq<Attempt>): seq<nat>
  {
    if |attempts| == 0 then []
    else
      (match attempts[0].pause
       case Some(d) => [d]
       case None => []) + Delays(attempts[1..])
  }

  /** When every attempt but the last sleeps and the last does not, the delays are
      exactly the pauses of the leading attempts. */
  lemma {:induction false} DelaysOfLeadingPauses(attempts: seq<Attempt>)
    requires |attempts| > 0
    requires forall j :: 0 <= j < |attempts| - 1 ==> attempts[j].pause.Some?
    requires attempts[|attempts| - 1].pause.None?
    ensures |Delays(attempts)| == |attempts| - 1
    ensures forall j :: 0 <= j < |attempts| - 1 ==> Delays(attempts)[j] == attempts[j].pause.value
  {
    if |attempts| > 1 {
      DelaysOfLeadingPauses(attempts[1..]);
    }
  }

  /** When every attempt but the last sleeps `d` ms and the last does not, the delays are
      `d` repeated once per attempt but the last. */
  lemma UniformDelays(attempts: seq<Attempt>, d: nat)
    requires |attempts| > 0 && attempts[|attempts| - 1].pause.None?
    requires forall j :: 0 <= j < |attempts| - 1 ==> attempts[j].pause == Some(d)
    ensures Delays(attempts) == seq(|attempts| - 1, _ => d)
  {
    DelaysOfLeadingPauses(attempts);
  }

  /** The index of the first successful attempt among `from..n-1`, or `n` when none succeeds. */
  function FirstOk(net: Oracle, from: nat, n: nat): (k: nat)
    requires from <= n
    ensures from <= k <= n
    ensures forall j :: from <= j < k ==> !net(j).Ok?
    ensures k < n ==> net(k).Ok?
    decreases n - from
  {
    if from == n then n
    else if net(from).Ok? then from
    else FirstOk(net, from + 1, n)
  }

  /** Two networks that succeed at the same positions have the same first success. */
  lemma {:induction false} FirstOkAgree(net1: Oracle, net2: Oracle, from: nat, n: nat)
    requires from <= n
    requires forall j :: from <= j < n ==> (net1(j).Ok? <==> net2(j).Ok?)
    ensures FirstOk(net1, from, n) == FirstOk(net2, from, n)
    decreases n - from
  {
    if from < n && !net1(from).Ok? {
      FirstOkAgree(net1, net2, from + 1, n);
    }
  }

  /** The JavaScript `length` of a string: a character above U+FFFF takes two UTF-16 code units. */
  function Utf16Length(s: string): (n: nat)
    ensures |s| <= n <= 2 * |s|
  {
    if |s| == 0 then 0
    else (if s[0] as int > 0xFFFF then 2 else 1) + Utf16Length(s[1..])
  }

  /** The key a failed attempt is filed under, `error.response?.status || 'NETWORK_ERROR'`.
      `Code(n)` stands for the decimal string of `n`; a status is falsy only when it is 0. */
  datatype StatusKey = Code(n: int) | NetworkError

  function KeyOf(o: Outcome): (k: StatusKey)
    requires !o.Ok?
    ensures k.Code? <==> o.Status? && o.status != 0
    ensures k.Code? ==> k.n == o.status
  {
    if o.Status? && o.status != 0 then Code(o.status) else NetworkError
  }

  /** `error.response?.status || 500`, the numeric status the single-endpoint fetchers report. */
  function StatusOr500(o: Outcome): (s: int)
    requires !o.Ok?
    ensures o.Status? && o.status != 0 ==> s == o.status
    ensures !(o.Status? && o.status != 0) ==> s == 500
  {
    if o.Status? && o.status != 0 then o.status else 500
  }
}
