/** The client (`ScrappeyClient`): construction, the retry policy, the
    classification of API errors, the attempt loop of `async_scrape` and the
    per-item wrapper of `concurrent_scrape`. The HTTP call is a `Transport`
    value per attempt and `random.random()` a number per attempt. */
module Scrappey {

  import opened Wrappers
  import opened Text
  import opened Json
  import opened Exceptions
  import opened Config
  import opened ConfigLaws
  import opened Response

  /** `RETRYABLE_ERRORS`, all in lower case. */
  const RetryableErrors: seq<string> := [
    "browser closed", "browser disconnected", "target closed", "page closed",
    "navigation failed", "net::err", "timeout", "econnreset", "econnrefused",
    "socket hang up", "network error", "protocol error", "session not found",
    "context destroyed"]

  /** `any(k in text for k in keywords)`. */
  function AnyOccurs(keywords: seq<string>, text: string): (r: bool)
    ensures r <==> exists i :: 0 <= i < |keywords| && IsSubstring(keywords[i], text)
  {
    if keywords == [] then false
    else IsSubstring(keywords[0], text) || AnyOccurs(keywords[1..], text)
  }

  /** `_is_retryable_error`: some keyword occurs in the lower-cased message.
      The attempt loop never consults it. */
  function IsRetryableError(message: string): (r: bool)
    ensures r <==> exists i :: 0 <= i < |RetryableErrors| && IsSubstring(RetryableErrors[i], Lower(message))
  {
    AnyOccurs(RetryableErrors, Lower(message))
  }

  /** The test ignores ASCII case. */
  lemma RetryableIgnoresCase(message: string)
    ensures IsRetryableError(Upper(message)) == IsRetryableError(message)
    ensures IsRetryableError(Lower(message)) == IsRetryableError(message)
  {
    LowerOfUpper(message);
    LowerIdempotent(message);
  }

  /** "TIMEOUT" is retryable; a message of fewer characters than every
      keyword, such as "boom", is not. */
  lemma RetryableExamples()
    ensures IsRetryableError("TIMEOUT")
    ensures !IsRetryableError("boom")
  {
    assert Lower("TIMEOUT") == "timeout";
    assert RetryableErrors[6] == "timeout";
    IsSubstringIff("timeout", "timeout");
    assert OccursAt("timeout", "timeout", 0);
    forall i | 0 <= i < |RetryableErrors|
      ensures !IsSubstring(RetryableErrors[i], Lower("boom"))
    {
      assert |RetryableErrors[i]| > 4;
    }
  }

  /** Nonlinear real arithmetic the solver does not find by itself. */
  lemma NonNegativeProduct(x: real, y: real)
    requires 0.0 <= x && 0.0 <= y
    ensures 0.0 <= x * y
  {
  }

  /** `delay + delay * 0.25 * (2 * random - 1)`: the delay moved by up to a
      quarter either way. */
  function Jittered(d: real, random: real): real {
    d + d * 0.25 * (2.0 * random - 1.0)
  }

  /** A jitter factor drawn from [0, 1) moves a non-negative delay by at
      most a quarter either way. */
  lemma JitterBounds(d: real, random: real)
    requires 0.0 <= d && 0.0 <= random < 1.0
    ensures 0.75 * d <= Jittered(d, random) <= 1.25 * d
  {
    assert d + d * 0.25 * (2.0 * random - 1.0) == 0.75 * d + 0.5 * (d * random);
    NonNegativeProduct(d, random);
    NonNegativeProduct(d, 1.0 - random);
    assert d * (1.0 - random) == d - d * random;
  }

  const MaxAllowedConcurrency := 100

  const MissingKeyMessage := "API key is required. Set SCRAPPEY_KEY environment variable or pass key parameter."

  /** `retry_delay * (2 ** attempt)` multiplies a float by an exact
      integer, which Python first converts to a double; from `2 ** 1024`
      on that conversion raises `OverflowError`, so attempt 1024 is the
      first whose delay cannot be computed. */
  const OverflowAttempt: nat := 1024

  /** The `OverflowError` that conversion raises. */
  const DelayOverflow := ForeignError("int too large to convert to float")

  /** `2 ** n`, as a float. */
  function Pow2(n: nat): (r: real)
    ensures r >= 1.0
  {
    if n == 0 then 1.0 else 2.0 * Pow2(n - 1)
  }

  /** What one call to the HTTP API gave: a decoded JSON body, an httpx
      timeout, another httpx error, or a body that is not JSON. */
  datatype Transport =
    | Decoded(body: Json)
    | TimedOut(detail: string)
    | HttpFailed(detail: string)
    | NotJson(detail: string)

  /** `"error" in data` for a body that is not an object: a substring test
      on a string, a membership test on a list, and a `TypeError` for the
      rest. */
  function ErrorMarker(data: Json): (r: Result<bool, Exception>)
    requires !data.JObj?
  {
    match data
    case JStr(s) => Success(IsSubstring("error", s))
    case JArr(items) => Success(JStr("error") in items)
    case _ => Failure(ForeignError("argument of type '" + PyTypeName(data) + "' is not iterable"))
  }

  /** The classification of a decoded body (`_make_request`): a body with
      an `"error"` entry raises, a body without one is returned as it is. */
  function ClassifyBody(data: Json): (r: Result<Json, Exception>)
    ensures r.Success? ==> r.value == data
    ensures data.JObj? ==> (r.Success? <==> "error" !in data.fields)
    ensures r.Failure? && r.error.IsScrappeyError() ==>
      && data.JObj? && r.error.apiResponse == data
      && r.error.kind in {Auth, Timeout, Request}
      && r.error.message == data.fields["error"]
  {
    if !data.JObj? then
      var marked :- ErrorMarker(data);
      if marked then Failure(ForeignError(NoAttribute(data, "get"))) else Success(data)
    else if "error" !in data.fields then
      Success(data)
    else
      var code := Get(data.fields, "code", JStr("UNKNOWN"));
      var message := data.fields["error"];
      if code == JStr("CODE-0001") then
        Failure(Exception(Auth, message, code, data))
      else if !message.JStr? then
        Failure(ForeignError(NoAttribute(message, "lower")))
      else if IsSubstring("timeout", Lower(message.s)) then
        Failure(Exception(Timeout, message, code, data))
      else
        Failure(Exception(Request, message, code, data))
  }

  /** The auth code is checked first: it wins even over a timeout message. */
  lemma AuthBeforeTimeout(fields: map<string, Json>)
    requires "error" in fields && Get(fields, "code", JNull) == JStr("CODE-0001")
    ensures ClassifyBody(JObj(fields)) == Failure(Exception(Auth, fields["error"], JStr("CODE-0001"), JObj(fields)))
  {
  }

  /** Any other error with a string message is a timeout exactly when the
      lower-cased message contains "timeout", and a request error
      otherwise; the code defaults to "UNKNOWN". */
  lemma TimeoutIffKeyword(fields: map<string, Json>)
    requires "error" in fields && fields["error"].JStr?
    requires Get(fields, "code", JStr("UNKNOWN")) != JStr("CODE-0001")
    ensures var r := ClassifyBody(JObj(fields));
      && r.Failure?
      && r.error.code == (if "code" in fields then fields["code"] else JStr("UNKNOWN"))
      && (r.error.kind == Timeout <==> IsSubstring("timeout", Lower(fields["error"].s)))
      && (r.error.kind == Request <==> !IsSubstring("timeout", Lower(fields["error"].s)))
  {
  }

  /** The kind ignores the message's ASCII case: two messages that agree
      once lower-cased classify alike. */
  lemma TimeoutAnyCase(fields: map<string, Json>, m1: string, m2: string)
    requires Lower(m1) == Lower(m2)
    requires Get(fields, "code", JStr("UNKNOWN")) != JStr("CODE-0001")
    ensures ClassifyBody(JObj(fields["error" := JStr(m1)])).error.kind
      == ClassifyBody(JObj(fields["error" := JStr(m2)])).error.kind
  {
    assert Get(fields["error" := JStr(m1)], "code", JStr("UNKNOWN")) == Get(fields, "code", JStr("UNKNOWN"));
    assert Get(fields["error" := JStr(m2)], "code", JStr("UNKNOWN")) == Get(fields, "code", JStr("UNKNOWN"));
    TimeoutIffKeyword(fields["error" := JStr(m1)]);
    TimeoutIffKeyword(fields["error" := JStr(m2)]);
  }

  /** A mixed-case "TimeOut" is a timeout error with code "UNKNOWN". */
  lemma MixedCaseTimeout()
    ensures ClassifyBody(JObj(map["error" := JStr("TimeOut")]))
      == Failure(Exception(Timeout, JStr("TimeOut"), JStr("UNKNOWN"), JObj(map["error" := JStr("TimeOut")])))
  {
    var fields := map["error" := JStr("TimeOut")];
    TimeOutContainsKeyword();
    assert Get(fields, "code", JStr("UNKNOWN")) == JStr("UNKNOWN");
    TimeoutIffKeyword(fields);
  }

  /** "TimeOut" lower-cases to the keyword itself. */
  lemma TimeOutContainsKeyword()
    ensures IsSubstring("timeout", Lower("TimeOut"))
  {
    assert Lower("TimeOut") == "timeout";
    assert OccursAt("timeout", "timeout", 0);
    IsSubstringIff("timeout", "timeout");
  }

  /** `_make_request`: the transport errors become a timeout or a request
      error with no code; a body that is not JSON raises Python's own
      error; a decoded body is classified. */
  function MakeRequest(t: Transport): (r: Result<Json, Exception>)
    ensures r.Success? ==> t.Decoded? && r.value == t.body
    ensures t.TimedOut? ==> r.Failure? && r.error.kind == Timeout && r.error.code == JNull
    ensures t.HttpFailed? ==> r.Failure? && r.error.kind == Request && r.error.code == JNull
    ensures t.NotJson? ==> r.Failure? && !r.error.IsScrappeyError()
    ensures t.Decoded? ==> r == ClassifyBody(t.body)
  {
    match t
    case Decoded(body) => ClassifyBody(body)
    case TimedOut(detail) => Failure(Exception(Timeout, JStr("Request timed out: " + detail), JNull, JNull))
    case HttpFailed(detail) => Failure(Exception(Request, JStr("HTTP error: " + detail), JNull, JNull))
    case NotJson(detail) => Failure(ForeignError(detail))
  }

  /** One attempt of `async_scrape`: the request, then the response
      wrapper, both inside the `try`. */
  function Attempt(t: Transport, url: string): Result<ScrapeApiResponse, Exception> {
    var body :- MakeRequest(t);
    NewResponse(body, url)
  }

  /** Every error an attempt raises other than an auth error has a string
      message, so `str(e)` is that message. */
  lemma AttemptErrorsHaveText(t: Transport, url: string)
    requires Attempt(t, url).Failure? && Attempt(t, url).error.kind != Auth
    ensures Attempt(t, url).error.message.JStr?
  {
  }

  /** The results of the first `n` attempts, in order. */
  function Outcomes(transport: seq<Transport>, url: string, n: nat): (os: seq<Result<ScrapeApiResponse, Exception>>)
    requires n <= |transport|
    ensures |os| == n
  {
    if n == 0 then [] else Outcomes(transport, url, n - 1) + [Attempt(transport[n - 1], url)]
  }

  /** Attempt `i` uses the transport's `i`-th result. */
  lemma {:induction false} OutcomeAt(transport: seq<Transport>, url: string, n: nat, i: nat)
    requires n <= |transport| && i < n
    ensures Outcomes(transport, url, n)[i] == Attempt(transport[i], url)
  {
    if i < n - 1 {
      OutcomeAt(transport, url, n - 1, i);
    }
  }

  /** Every attempt uses its own transport result. */
  lemma AllOutcomes(transport: seq<Transport>, url: string, n: nat)
    requires n <= |transport|
    ensures forall i :: 0 <= i < n ==> Outcomes(transport, url, n)[i] == Attempt(transport[i], url)
  {
    forall i | 0 <= i < n
      ensures Outcomes(transport, url, n)[i] == Attempt(transport[i], url)
    {
      OutcomeAt(transport, url, n, i);
    }
  }

  /** An attempt ends the loop when it succeeds or raises an auth error. */
  predicate Stops(o: Result<ScrapeApiResponse, Exception>) {
    o.Success? || o.error.kind == Auth
  }

  /** The index of the first attempt that ends the loop, or the number of
      attempts when none does. */
  function FirstStop(os: seq<Result<ScrapeApiResponse, Exception>>): (k: nat)
    ensures k <= |os|
    ensures forall i :: 0 <= i < k ==> !Stops(os[i])
    ensures k < |os| ==> Stops(os[k])
  {
    if os == [] then 0
    else if Stops(os[0]) then 0
    else 1 + FirstStop(os[1..])
  }

  /** `FirstStop` is the index of the first attempt that stops. */
  lemma {:induction false} FirstStopIs(os: seq<Result<ScrapeApiResponse, Exception>>, k: nat)
    requires k <= |os|
    requires forall i :: 0 <= i < k ==> !Stops(os[i])
    requires k < |os| ==> Stops(os[k])
    ensures FirstStop(os) == k
  {
    if k > 0 {
      assert !Stops(os[0]);
      assert forall i :: 0 <= i < k - 1 ==> os[1..][i] == os[i + 1];
      FirstStopIs(os[1..], k - 1);
    }
  }

  /** The body `async_scrape` wraps once every attempt failed: the html is
      empty, `status` 0 sits inside `solution`, and `error` is
      `str(last_error)` ("None" when no attempt was made). */
  function ExhaustedBody(lastError: Option<Exception>): map<string, Json> {
    map[
      "solution" := JObj(map["html" := JStr(""), "status" := JInt(0)]),
      "error" := if lastError.Some? then lastError.value.message else JStr("None")]
  }

  /** The response `async_scrape` builds from that body, field by field. */
  function ExhaustedResponse(lastError: Option<Exception>, url: string): ScrapeApiResponse {
    var context := map[
      "url" := JStr(url), "status_code" := JInt(200), "cookies" := JArr([]), "headers" := JObj(map[])];
    ScrapeApiResponse(ExhaustedBody(lastError), url, JStr(""), "", context, map[
      "browser_data" := JObj(map[
        "xhr_call" := JArr([]), "javascript_evaluation_result" := JNull, "screenshot" := JNull]),
      "content" := JStr(""), "status_code" := JInt(200), "url" := JStr(url)])
  }

  /** It is exactly what the response constructor makes of the body. */
  lemma ExhaustedResponseConstructed(lastError: Option<Exception>, url: string)
    ensures NewResponse(JObj(ExhaustedBody(lastError)), url) == Success(ExhaustedResponse(lastError, url))
  {
    var raw := JObj(ExhaustedBody(lastError));
    var sol := SolutionOf(raw.fields).fields;
    assert "innerText" !in sol && "html" in sol;
    assert "currentUrl" !in sol && "url" !in sol && "statusCode" !in sol && "status" !in raw.fields;
    assert "cookies" !in sol && "responseHeaders" !in sol && "headers" !in sol;
    assert "xhrCalls" !in sol && "jsResult" !in sol && "screenshotUrl" !in raw.fields;
  }

  /** The exhausted response reports status 200, not the 0 it carries:
      the status is read from `solution["statusCode"]` or the top-level
      `status`, never from `solution["status"]`. Its html and content are
      empty and its url is the one asked for. */
  lemma ExhaustedResponseReports200(lastError: Option<Exception>, url: string)
    ensures var r := NewResponse(JObj(ExhaustedBody(lastError)), url);
      && r.Success?
      && r.value.StatusCode() == JInt(200)
      && r.value.html == JStr("")
      && r.value.Content() == JStr("")
      && r.value.Url() == JStr(url)
      && r.value.rawResponse["error"] == (if lastError.Some? then lastError.value.message else JStr("None"))
  {
    ExhaustedResponseConstructed(lastError, url);
  }

  /** How `async_scrape` ended. */
  datatype Outcome = Returned(response: ScrapeApiResponse) | Raised(error: Exception)

  /** A run of `async_scrape`: how it ended, how many times it called the
      API and the delays it slept, in order. */
  datatype Run = Run(outcome: Outcome, calls: nat, sleeps: seq<real>)

  /** What `concurrent_scrape` yields for one config. */
  datatype Item = Scraped(response: ScrapeApiResponse) | ScrapeError(error: Exception)

  /** `scrape_with_semaphore`: a raised `ScrappeyError` becomes a
      `ScrapflyScrapeError` whose `api_response` names the config's url;
      any other exception is not caught (`Failure`). */
  function WrapOutcome(outcome: Outcome, url: string): (r: Result<Item, Exception>)
    ensures r.Failure? <==> outcome.Raised? && !outcome.error.IsScrappeyError()
    ensures r.Failure? ==> r.error == outcome.error
    ensures outcome.Returned? ==> r == Success(Scraped(outcome.response))
    ensures r.Success? && r.value.ScrapeError? ==>
      && r.value.error.kind == ScrapflyScrape
      && r.value.error.message == outcome.error.message
      && r.value.error.code == outcome.error.code
      && r.value.error.apiResponse == JObj(map["config" := JObj(map["url" := JStr(url)])])
  {
    match outcome
    case Returned(response) => Success(Scraped(response))
    case Raised(e) =>
      if e.IsScrappeyError() then
        Success(ScrapeError(Exception(ScrapflyScrape, e.message, e.code,
                                      JObj(map["config" := JObj(map["url" := JStr(url)])]))))
      else Failure(e)
  }

  class ScrappeyClient {
    const apiKey: string
    const maxConcurrency: int
    const timeout: int
    const maxRetries: int
    const retryDelay: real
    const retryMaxDelay: real

    /** `__init__` once the key is known: the concurrency is clamped into
        1..100 and the other settings are kept. */
    constructor(apiKey: string, maxConcurrency: int := 100, timeout: int := 120, maxRetries: int := 3,
                retryDelay: real := 1.0, retryMaxDelay: real := 30.0)
      ensures this.apiKey == apiKey && this.timeout == timeout && this.maxRetries == maxRetries
      ensures this.retryDelay == retryDelay && this.retryMaxDelay == retryMaxDelay
      ensures 1 <= this.maxConcurrency <= MaxAllowedConcurrency
      ensures maxConcurrency < 1 ==> this.maxConcurrency == 1
      ensures maxConcurrency > MaxAllowedConcurrency ==> this.maxConcurrency == MaxAllowedConcurrency
      ensures 1 <= maxConcurrency <= MaxAllowedConcurrency ==> this.maxConcurrency == maxConcurrency
    {
      var concurrency := maxConcurrency;
      if concurrency < 1 {
        concurrency := 1;
      } else if concurrency > MaxAllowedConcurrency {
        concurrency := MaxAllowedConcurrency;
      }
      this.apiKey := apiKey;
      this.maxConcurrency := concurrency;
      this.timeout := timeout;
      this.maxRetries := maxRetries;
      this.retryDelay := retryDelay;
      this.retryMaxDelay := retryMaxDelay;
    }

    /** `len(range(max_retries + 1))`. */
    function AttemptCount(): nat {
      if maxRetries + 1 > 0 then maxRetries + 1 else 0
    }

    /** `min(retry_delay * 2 ** attempt, retry_max_delay)`. */
    function BaseDelay(attempt: nat): real {
      var d := retryDelay * Pow2(attempt);
      if d <= retryMaxDelay then d else retryMaxDelay
    }

    /** `_get_retry_delay`, with `random` for `random.random()`: the
        jittered base delay, or the `OverflowError` of the conversion. */
    function RetryDelay(attempt: nat, random: real): (r: Result<real, Exception>)
      ensures r.Success? <==> attempt < OverflowAttempt
      ensures r.Failure? ==> r.error == DelayOverflow && !r.error.IsScrappeyError()
    {
      if attempt >= OverflowAttempt then Failure(DelayOverflow)
      else Success(Jittered(BaseDelay(attempt), random))
    }

    /** For non-negative settings the base delay never exceeds the cap nor
        the uncapped exponential. */
    lemma BaseDelayBounds(attempt: nat)
      requires 0.0 <= retryDelay && 0.0 <= retryMaxDelay
      ensures 0.0 <= BaseDelay(attempt) <= retryMaxDelay
      ensures BaseDelay(attempt) <= retryDelay * Pow2(attempt)
    {
      assert 0.0 <= retryDelay * Pow2(attempt);
    }

    /** The jitter keeps the delay within 25% of the base delay, and so
        within 25% of the cap. */
    lemma RetryDelayBounds(attempt: nat, random: real)
      requires 0.0 <= retryDelay && 0.0 <= retryMaxDelay
      requires 0.0 <= random < 1.0
      ensures attempt < OverflowAttempt ==>
        && 0.75 * BaseDelay(attempt) <= RetryDelay(attempt, random).value <= 1.25 * BaseDelay(attempt)
        && 0.0 <= RetryDelay(attempt, random).value <= 1.25 * retryMaxDelay
    {
      BaseDelayBounds(attempt);
      JitterBounds(BaseDelay(attempt), random);
    }

    /** The base delay never shrinks from one attempt to the next. */
    lemma {:induction false} BaseDelayGrows(attempt: nat)
      requires 0.0 <= retryDelay
      ensures BaseDelay(attempt) <= BaseDelay(attempt + 1)
    {
      assert Pow2(attempt + 1) == 2.0 * Pow2(attempt);
      assert retryDelay * Pow2(attempt) <= retryDelay * Pow2(attempt + 1);
    }

    /** Once the cap applies, the delay can fall below three quarters of
        the uncapped exponential: with delay 1, cap 30 and attempt 5 the
        base is 30, not 32, and the smallest jitter gives 22.5 < 24. */
    lemma CappedDelayBelowUncappedBound()
      requires retryDelay == 1.0 && retryMaxDelay == 30.0
      ensures RetryDelay(5, 0.0) == Success(22.5)
      ensures RetryDelay(5, 0.0).value < 0.75 * retryDelay * Pow2(5)
    {
      assert Pow2(5) == 32.0;
    }

    /** The delays slept after the first `n` attempts. */
    function Sleeps(jitter: seq<real>, n: nat): seq<real>
      requires n <= |jitter| && n <= OverflowAttempt
    {
      seq(n, i requires 0 <= i < n => RetryDelay(i, jitter[i]).value)
    }

    /** One more attempt adds its own delay at the end. */
    lemma SleepsSnoc(jitter: seq<real>, n: nat)
      requires n < |jitter| && n < OverflowAttempt
      ensures Sleeps(jitter, n + 1) == Sleeps(jitter, n) + [RetryDelay(n, jitter[n]).value]
    {
      assert Sleeps(jitter, n + 1)[..n] == Sleeps(jitter, n);
    }

    /** The run that reaches attempt 1024 with a retry left: its delay
        raises `OverflowError` from inside the `except` handler, after 1025
        calls and 1024 sleeps. */
    function OverflowRun(jitter: seq<real>): Run
      requires |jitter| >= OverflowAttempt
    {
      Run(Raised(DelayOverflow), OverflowAttempt + 1, Sleeps(jitter, OverflowAttempt))
    }

    /** The attempt loop over the results `os` of the attempts it may make:
        the first attempt that succeeds or raises an auth error ends the
        run, with a sleep after each earlier attempt; when there is none,
        the run returns the exhausted response after the last attempt,
        without a final sleep. A run that fails past attempt 1023 with
        retries left ends instead with the delay's `OverflowError`. */
    function RunOf(os: seq<Result<ScrapeApiResponse, Exception>>, jitter: seq<real>, url: string): Run
      requires |jitter| >= |os|
    {
      var k := FirstStop(os);
      if |os| > OverflowAttempt + 1 && k > OverflowAttempt then OverflowRun(jitter)
      else if k < |os| then
        Run(if os[k].Success? then Returned(os[k].value) else Raised(os[k].error), k + 1, Sleeps(jitter, k))
      else if |os| == 0 then
        Run(Returned(ExhaustedResponse(None, url)), 0, [])
      else
        Run(Returned(ExhaustedResponse(Some(os[|os| - 1].error), url)), |os|, Sleeps(jitter, |os| - 1))
    }

    /** The attempts reach attempt 1024 with a retry left, every one of
        them failing without an auth error, so that attempt's delay
        overflows. */
    predicate Overflows(transport: seq<Transport>, url: string)
      requires |transport| >= AttemptCount()
    {
      maxRetries > OverflowAttempt && forall i :: 0 <= i <= OverflowAttempt ==> !Stops(Attempt(transport[i], url))
    }

    /** What `async_scrape` does: a failed translation raises before any
        call; otherwise the attempt loop runs. */
    function ScrapeSpec<P>(payload: Result<P, Exception>, transport: seq<Transport>,
                        jitter: seq<real>, url: string): Run
      requires |transport| >= AttemptCount() && |jitter| >= AttemptCount()
    {
      if payload.Failure? then Run(Raised(payload.error), 0, [])
      else RunOf(Outcomes(transport, url, AttemptCount()), jitter, url)
    }

    /** The run ended by attempt `k`, the first that stops, unless the
        delay overflowed before it. */
    lemma RunStopsAt(os: seq<Result<ScrapeApiResponse, Exception>>, jitter: seq<real>, url: string, k: nat)
      requires |jitter| >= |os| && k < |os|
      requires forall i :: 0 <= i < k ==> !Stops(os[i])
      requires Stops(os[k])
      ensures k <= OverflowAttempt ==>
        RunOf(os, jitter, url)
          == Run(if os[k].Success? then Returned(os[k].value) else Raised(os[k].error), k + 1, Sleeps(jitter, k))
      ensures k > OverflowAttempt ==> RunOf(os, jitter, url) == OverflowRun(jitter)
    {
      FirstStopIs(os, k);
    }

    /** The run after every attempt failed without an auth error: the
        exhausted response, or the overflow when there were more than
        1025 attempts. */
    lemma RunExhausted(os: seq<Result<ScrapeApiResponse, Exception>>, jitter: seq<real>, url: string)
      requires |jitter| >= |os| && |os| > 0
      requires forall i :: 0 <= i < |os| ==> !Stops(os[i])
      ensures |os| <= OverflowAttempt + 1 ==>
        RunOf(os, jitter, url)
          == Run(Returned(ExhaustedResponse(Some(os[|os| - 1].error), url)), |os|, Sleeps(jitter, |os| - 1))
      ensures |os| > OverflowAttempt + 1 ==> RunOf(os, jitter, url) == OverflowRun(jitter)
    {
      FirstStopIs(os, |os|);
    }

    /** Attempt 1024 failing without an auth error, with a retry left,
        ends the run with the overflow whatever the later attempts hold. */
    lemma RunOverflows(os: seq<Result<ScrapeApiResponse, Exception>>, jitter: seq<real>, url: string)
      requires |jitter| >= |os| && |os| > OverflowAttempt + 1
      requires forall i :: 0 <= i <= OverflowAttempt ==> !Stops(os[i])
      ensures RunOf(os, jitter, url) == OverflowRun(jitter)
    {
    }

    /** The body of the `try`: attempt `attempt` of the run. */
    method CallApi(transport: seq<Transport>, url: string, attempt: nat)
      returns (outcome: Result<ScrapeApiResponse, Exception>)
      requires |transport| >= AttemptCount() && attempt < AttemptCount()
      ensures outcome == Outcomes(transport, url, AttemptCount())[attempt]
    {
      outcome := Attempt(transport[attempt], url);
      OutcomeAt(transport, url, AttemptCount(), attempt);
    }

    /** The attempt loop of `async_scrape`, once the payload is built. */
    method Attempts(transport: seq<Transport>, jitter: seq<real>, url: string) returns (run: Run)
      requires |transport| >= AttemptCount() && |jitter| >= AttemptCount()
      ensures run == RunOf(Outcomes(transport, url, AttemptCount()), jitter, url)
    {
      ghost var os := Outcomes(transport, url, AttemptCount());
      var lastError: Option<Exception> := None;
      var calls := 0;
      var sleeps: seq<real> := [];
      for attempt := 0 to AttemptCount()
        invariant calls == attempt
        invariant attempt > 0 ==> attempt <= maxRetries
        invariant attempt <= OverflowAttempt
        invariant forall i :: 0 <= i < attempt ==> !Stops(os[i])
        invariant sleeps == Sleeps(jitter, attempt)
        invariant attempt == 0 ==> lastError == None
      {
        calls := calls + 1;
        var outcome := CallApi(transport, url, attempt);
        if outcome.Success? {
          RunStopsAt(os, jitter, url, attempt);
          return Run(Returned(outcome.value), calls, sleeps);
        }
        if outcome.error.kind == Auth {
          RunStopsAt(os, jitter, url, attempt);
          return Run(Raised(outcome.error), calls, sleeps);
        }
        assert !Stops(os[attempt]);
        lastError := Some(outcome.error);
        if attempt >= maxRetries {
          assert |os| == attempt + 1 && os[attempt] == outcome;
          RunExhausted(os, jitter, url);
          break;
        }
        var delay := RetryDelay(attempt, jitter[attempt]);
        if delay.Failure? {
          assert attempt == OverflowAttempt;
          RunOverflows(os, jitter, url);
          return Run(Raised(delay.error), calls, sleeps);
        }
        SleepsSnoc(jitter, attempt);
        sleeps := sleeps + [delay.value];
      }
      run := Run(Returned(ExhaustedResponse(lastError, url)), calls, sleeps);
    }

    /** `async_scrape`: translates the config (which may write the cookie
        header into it), then tries at most `max_retries + 1` times. */
    method AsyncScrape(config: ScrapeConfig, sessionId: Option<string>, transport: seq<Transport>,
                       jitter: seq<real>) returns (run: Run)
      requires |transport| >= AttemptCount() && |jitter| >= AttemptCount()
      modifies config.headers
      ensures config.headers.entries == config.HeadersAfter(old(config.headers.entries))
      ensures run == ScrapeSpec(config.PayloadWith(old(config.headers.entries), sessionId), transport, jitter, config.url)
    {
      var payload := config.ToScrappeyPayload(sessionId);
      if payload.Failure? {
        return Run(Raised(payload.error), 0, []);
      }
      run := Attempts(transport, jitter, config.url);
    }

    /** What `concurrent_scrape` yields for one config (`Failure`: the
        exception escapes). The translation fails exactly when, and with
        the error that, its browser actions do, whatever the headers and
        the session, so the item depends on neither. */
    function ItemSpec(config: ScrapeConfig, transport: seq<Transport>, jitter: seq<real>): Result<Item, Exception>
      requires |transport| >= AttemptCount() && |jitter| >= AttemptCount()
    {
      WrapOutcome(ScrapeSpec(config.BrowserActions(), transport, jitter, config.url).outcome, config.url)
    }

    /** The item is what the wrapper makes of `async_scrape`'s run, for any
        headers and session. */
    lemma ItemOfTranslation(config: ScrapeConfig, h: map<string, string>, sessionId: Option<string>,
                            transport: seq<Transport>, jitter: seq<real>)
      requires |transport| >= AttemptCount() && |jitter| >= AttemptCount()
      ensures ItemSpec(config, transport, jitter)
        == WrapOutcome(ScrapeSpec(config.PayloadWith(h, sessionId), transport, jitter, config.url).outcome, config.url)
    {
      var p := config.PayloadWith(h, sessionId);
      if p.Failure? {
        assert config.BrowserActions() == Failure(p.error);
      }
    }

    /** `scrape_with_semaphore`, without the semaphore. */
    method ScrapeWithSemaphore(config: ScrapeConfig, sessionId: Option<string>, transport: seq<Transport>,
                               jitter: seq<real>) returns (r: Result<Item, Exception>)
      requires |transport| >= AttemptCount() && |jitter| >= AttemptCount()
      modifies config.headers
      ensures config.headers.entries == config.HeadersAfter(old(config.headers.entries))
      ensures r == ItemSpec(config, transport, jitter)
    {
      ItemOfTranslation(config, config.headers.entries, sessionId, transport, jitter);
      var run := AsyncScrape(config, sessionId, transport, jitter);
      match run.outcome
      case Returned(response) =>
        r := Success(Scraped(response));
      case Raised(e) =>
        if e.IsScrappeyError() {
          var error := Exception(ScrapflyScrape, e.message, e.code, e.apiResponse);
          error := error.(apiResponse := JObj(map["config" := JObj(map["url" := JStr(config.url)])]));
          r := Success(ScrapeError(error));
        } else {
          r := Failure(e);
        }
    }

    /** `concurrent_scrape`, one config after the other and in input order:
        one item per config, up to the first exception the wrapper lets
        through. */
    method ConcurrentScrape(configs: seq<ScrapeConfig>, sessionId: Option<string>,
                            transports: seq<seq<Transport>>, jitters: seq<seq<real>>)
      returns (items: seq<Item>, escaped: Option<Exception>)
      requires |transports| == |configs| && |jitters| == |configs|
      requires forall i :: 0 <= i < |configs| ==> |transports[i]| >= AttemptCount() && |jitters[i]| >= AttemptCount()
      modifies set i | 0 <= i < |configs| :: configs[i].headers
      ensures |items| <= |configs|
      ensures escaped.None? ==> |items| == |configs|
      ensures forall i :: 0 <= i < |items| ==>
        ItemSpec(configs[i], transports[i], jitters[i]) == Success(items[i])
      ensures escaped.Some? ==>
        && |items| < |configs|
        && ItemSpec(configs[|items|], transports[|items|], jitters[|items|])
             == Failure(escaped.value)
    {
      items, escaped := [], None;
      for i := 0 to |configs|
        invariant |items| == i
        invariant forall j :: 0 <= j < i ==>
          ItemSpec(configs[j], transports[j], jitters[j]) == Success(items[j])
      {
        var r := ScrapeWithSemaphore(configs[i], sessionId, transports[i], jitters[i]);
        if r.Failure? {
          return items, Some(r.error);
        }
        ghost var prev := items;
        items := items + [r.value];
        forall j | 0 <= j <= i
          ensures ItemSpec(configs[j], transports[j], jitters[j]) == Success(items[j])
        {
          if j < i {
            assert items[j] == prev[j];
          }
        }
      }
    }
  }

  /** A run calls the API at most `max_retries + 1` times, and at least
      once when the payload translates and some attempt is allowed. */
  lemma AttemptsBounded(c: ScrappeyClient, payload: Result<map<string, Json>, Exception>,
                        transport: seq<Transport>, jitter: seq<real>, url: string)
    requires |transport| >= c.AttemptCount() && |jitter| >= c.AttemptCount()
    ensures var run := c.ScrapeSpec(payload, transport, jitter, url);
      && run.calls <= c.AttemptCount()
      && (c.maxRetries >= 0 ==> run.calls <= c.maxRetries + 1)
      && (payload.Success? && c.maxRetries >= 0 ==> run.calls >= 1)
  {
  }

  /** The first attempt that succeeds or raises an auth error ends the run:
      its response is returned or its auth error re-raised, and no later
      attempt is made. */
  lemma FirstStopEndsRun(c: ScrappeyClient, payload: Result<map<string, Json>, Exception>,
                         transport: seq<Transport>, jitter: seq<real>, url: string, k: nat)
    requires |transport| >= c.AttemptCount() && |jitter| >= c.AttemptCount()
    requires payload.Success? && k < c.AttemptCount()
    requires forall i :: 0 <= i < k ==> !Stops(Attempt(transport[i], url))
    requires Stops(Attempt(transport[k], url))
    ensures var run := c.ScrapeSpec(payload, transport, jitter, url);
      k <= OverflowAttempt ==>
        && run.calls == k + 1
        && (Attempt(transport[k], url).Success? ==> run.outcome == Returned(Attempt(transport[k], url).value))
        && (Attempt(transport[k], url).Failure? ==>
              run.outcome == Raised(Attempt(transport[k], url).error) && run.outcome.error.kind == Auth)
    ensures k > OverflowAttempt ==> c.ScrapeSpec(payload, transport, jitter, url) == c.OverflowRun(jitter)
  {
    var os := Outcomes(transport, url, c.AttemptCount());
    AllOutcomes(transport, url, c.AttemptCount());
    assert FirstStop(os) == k;
  }

  /** Only an auth error, a failed translation or the delay's overflow
      escapes `async_scrape`, and the overflow only when the attempts
      reach attempt 1024 with a retry left. */
  lemma OnlyAuthOrTranslationRaises<P>(c: ScrappeyClient, payload: Result<P, Exception>,
                                    transport: seq<Transport>, jitter: seq<real>, url: string)
    requires |transport| >= c.AttemptCount() && |jitter| >= c.AttemptCount()
    ensures var run := c.ScrapeSpec(payload, transport, jitter, url);
      run.outcome.Raised? ==>
        || (payload.Failure? && run.outcome.error == payload.error)
        || run.outcome.error.kind == Auth
        || (payload.Success? && c.Overflows(transport, url) && run.outcome.error == DelayOverflow)
    ensures payload.Success? && c.Overflows(transport, url) ==>
      c.ScrapeSpec(payload, transport, jitter, url) == c.OverflowRun(jitter)
  {
    var os := Outcomes(transport, url, c.AttemptCount());
    AllOutcomes(transport, url, c.AttemptCount());
    if payload.Success? && c.Overflows(transport, url) {
      c.RunOverflows(os, jitter, url);
    }
  }

  /** The error an attempt raised, if it raised one. */
  function ErrorOf(outcome: Result<ScrapeApiResponse, Exception>): Option<Exception> {
    if outcome.Failure? then Some(outcome.error) else None
  }

  /** When every attempt fails with another error, the run makes every
      attempt and returns the exhausted response built from the last
      error (which reports status 200, by `ExhaustedResponseReports200`). */
  lemma ExhaustedRun(c: ScrappeyClient, payload: Result<map<string, Json>, Exception>,
                     transport: seq<Transport>, jitter: seq<real>, url: string)
    requires |transport| >= c.AttemptCount() && |jitter| >= c.AttemptCount()
    requires payload.Success?
    requires forall i :: 0 <= i < c.AttemptCount() ==> !Stops(Attempt(transport[i], url))
    ensures var run := c.ScrapeSpec(payload, transport, jitter, url);
      c.AttemptCount() <= OverflowAttempt + 1 ==>
        && run.calls == c.AttemptCount()
        && run.outcome == Returned(ExhaustedResponse(
             if c.AttemptCount() > 0 then ErrorOf(Attempt(transport[c.AttemptCount() - 1], url)) else None, url))
    ensures c.AttemptCount() > OverflowAttempt + 1 ==>
      c.ScrapeSpec(payload, transport, jitter, url) == c.OverflowRun(jitter)
  {
    var os := Outcomes(transport, url, c.AttemptCount());
    AllOutcomes(transport, url, c.AttemptCount());
    assert FirstStop(os) == |os|;
  }

  /** The run sleeps between attempts only: one delay after each attempt
      but the last, the delay of attempt `i` drawn with the `i`-th random
      number. */
  lemma SleepsBetweenAttempts(c: ScrappeyClient, payload: Result<map<string, Json>, Exception>,
                              transport: seq<Transport>, jitter: seq<real>, url: string)
    requires |transport| >= c.AttemptCount() && |jitter| >= c.AttemptCount()
    ensures var run := c.ScrapeSpec(payload, transport, jitter, url);
      && |run.sleeps| == (if run.calls == 0 then 0 else run.calls - 1)
      && forall i :: 0 <= i < |run.sleeps| ==> c.RetryDelay(i, jitter[i]) == Success(run.sleeps[i])
  {
  }

  /** With three retries and an API that always fails with an HTTP error,
      the API is called exactly four times, with three sleeps, and the run
      returns the exhausted response. */
  lemma FourCallsWhenAllFail(c: ScrappeyClient, payload: Result<map<string, Json>, Exception>,
                             transport: seq<Transport>, jitter: seq<real>, url: string)
    requires c.maxRetries == 3 && |transport| >= 4 && |jitter| >= 4
    requires payload.Success?
    requires forall i :: 0 <= i < 4 ==> transport[i].HttpFailed?
    ensures var run := c.ScrapeSpec(payload, transport, jitter, url);
      run.calls == 4 && |run.sleeps| == 3 && run.outcome.Returned?
  {
    ExhaustedRun(c, payload, transport, jitter, url);
  }

  /** With 1025 retries and an API that always fails with an HTTP error,
      the delay after attempt 1024 overflows: 1025 calls and 1024 sleeps,
      then an `OverflowError` that is not a `ScrappeyError`, so it escapes
      the per-item wrapper too. */
  lemma OverflowWhenAllFail(c: ScrappeyClient, config: ScrapeConfig, transport: seq<Transport>, jitter: seq<real>)
    requires c.maxRetries == 1025 && |transport| >= 1026 && |jitter| >= 1026
    requires config.BrowserActions().Success?
    requires forall i :: 0 <= i < 1026 ==> transport[i].HttpFailed?
    ensures var run := c.ScrapeSpec(config.BrowserActions(), transport, jitter, config.url);
      && run.calls == 1025 && |run.sleeps| == 1024 && run.outcome == Raised(DelayOverflow)
    ensures c.ItemSpec(config, transport, jitter) == Failure(DelayOverflow)
  {
    assert c.Overflows(transport, config.url);
    OnlyAuthOrTranslationRaises(c, config.BrowserActions(), transport, jitter, config.url);
  }

  /** Every error but an auth error is retried, whether or not its message
      is in `RETRYABLE_ERRORS`: an API error "boom" on the first attempt is
      followed by a second attempt. */
  lemma UnlistedErrorIsRetried(c: ScrappeyClient, payload: Result<map<string, Json>, Exception>,
                               transport: seq<Transport>, jitter: seq<real>, url: string)
    requires c.maxRetries >= 1 && |transport| >= c.AttemptCount() && |jitter| >= c.AttemptCount()
    requires payload.Success?
    requires transport[0] == Decoded(JObj(map["error" := JStr("boom")]))
    ensures !IsRetryableError("boom")
    ensures Attempt(transport[0], url).Failure? && Attempt(transport[0], url).error.kind == Request
    ensures c.ScrapeSpec(payload, transport, jitter, url).calls >= 2
  {
    BoomIsRequestError(url);
    var os := Outcomes(transport, url, c.AttemptCount());
    AllOutcomes(transport, url, c.AttemptCount());
    assert !Stops(os[0]);
  }

  /** An API error "boom" is a request error, and not a retryable one. */
  lemma BoomIsRequestError(url: string)
    ensures !IsRetryableError("boom")
    ensures Attempt(Decoded(JObj(map["error" := JStr("boom")])), url)
      == Failure(Exception(Request, JStr("boom"), JStr("UNKNOWN"), JObj(map["error" := JStr("boom")])))
  {
    RetryableExamples();
    BoomClassified();
  }

  /** The body `{"error": "boom"}` classifies as a request error. */
  lemma BoomClassified()
    ensures ClassifyBody(JObj(map["error" := JStr("boom")]))
      == Failure(Exception(Request, JStr("boom"), JStr("UNKNOWN"), JObj(map["error" := JStr("boom")])))
  {
    var fields := map["error" := JStr("boom")];
    assert |Lower("boom")| == 4;
    assert !IsSubstring("timeout", Lower("boom"));
    assert Get(fields, "code", JStr("UNKNOWN")) == JStr("UNKNOWN");
  }

  /** The wrapper yields a value for a config exactly when its translation
      succeeds and its delay does not overflow: every other error the
      attempts raise is a `ScrappeyError`. */
  lemma ItemDeliveredIffTranslates(c: ScrappeyClient, config: ScrapeConfig, transport: seq<Transport>, jitter: seq<real>)
    requires |transport| >= c.AttemptCount() && |jitter| >= c.AttemptCount()
    ensures c.ItemSpec(config, transport, jitter).Success?
      <==> config.BrowserActions().Success? && !c.Overflows(transport, config.url)
  {
    CollectErrorFrom(Conversions(config.Scenario()));
    OnlyAuthOrTranslationRaises(c, config.BrowserActions(), transport, jitter, config.url);
  }

  /** When every config translates, the batch yields an item for each
      config whose delay does not overflow. */
  lemma BatchDeliversAll(c: ScrappeyClient, configs: seq<ScrapeConfig>, transports: seq<seq<Transport>>,
                         jitters: seq<seq<real>>)
    requires |transports| == |configs| && |jitters| == |configs|
    requires forall i :: 0 <= i < |configs| ==> |transports[i]| >= c.AttemptCount() && |jitters[i]| >= c.AttemptCount()
    requires forall i :: 0 <= i < |configs| ==> configs[i].BrowserActions().Success?
    ensures forall i :: 0 <= i < |configs| ==>
      (c.ItemSpec(configs[i], transports[i], jitters[i]).Success? <==> !c.Overflows(transports[i], configs[i].url))
  {
    forall i | 0 <= i < |configs|
      ensures c.ItemSpec(configs[i], transports[i], jitters[i]).Success? <==> !c.Overflows(transports[i], configs[i].url)
    {
      ItemDeliveredIffTranslates(c, configs[i], transports[i], jitters[i]);
    }
  }

  /** `ScrappeyClient(...)`: the key argument, else the environment's key;
      no usable key raises an auth error. */
  method NewClient(key: Option<string>, envKey: Option<string>, maxConcurrency: int := 100,
                   timeout: int := 120, maxRetries: int := 3, retryDelay: real := 1.0,
                   retryMaxDelay: real := 30.0)
    returns (r: Result<ScrappeyClient, Exception>)
    ensures r.Failure? <==> !Present(key) && !Present(envKey)
    ensures r.Failure? ==> r.error == Exception(Auth, JStr(MissingKeyMessage), JNull, JNull)
    ensures r.Success? ==>
      && fresh(r.value)
      && r.value.apiKey == (if Present(key) then key.value else envKey.value)
      && 1 <= r.value.maxConcurrency <= MaxAllowedConcurrency
      && (maxConcurrency < 1 ==> r.value.maxConcurrency == 1)
      && (maxConcurrency > MaxAllowedConcurrency ==> r.value.maxConcurrency == MaxAllowedConcurrency)
      && (1 <= maxConcurrency <= MaxAllowedConcurrency ==> r.value.maxConcurrency == maxConcurrency)
      && r.value.timeout == timeout && r.value.maxRetries == maxRetries
      && r.value.retryDelay == retryDelay && r.value.retryMaxDelay == retryMaxDelay
  {
    var apiKey := if Present(key) then key else envKey;
    if !Present(apiKey) {
      return Failure(Exception(Auth, JStr(MissingKeyMessage), JNull, JNull));
    }
    var client := new ScrappeyClient(apiKey.value, maxConcurrency, timeout, maxRetries, retryDelay, retryMaxDelay);
    return Success(client);
  }

  /** `ScrappeyClient(key=...)` with no `SCRAPPEY_KEY` in the environment
      and every other argument left at its default: concurrency 100,
      timeout 120, three retries, a one-second base delay capped at
      thirty. */
  method DefaultClient(key: string) returns (r: Result<ScrappeyClient, Exception>)
    ensures r.Success? <==> key != ""
    ensures r.Success? ==>
      && r.value.apiKey == key && r.value.maxConcurrency == 100 && r.value.timeout == 120
      && r.value.maxRetries == 3 && r.value.retryDelay == 1.0 && r.value.retryMaxDelay == 30.0
  {
    r := NewClient(Some(key), None);
  }
}
