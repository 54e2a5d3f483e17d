# Scrappey wrapper — a Dafny model

The `scrappey_wrapper` package gives the Scrappey scraping API a
ScrapFly-compatible interface. This project models its three working parts
and proves what each promises:

- **The request translator** (`ScrapeConfig.to_scrappey_payload` with
  `_map_country_code` and `_convert_js_scenario_action`).
  - `Config.ScrapeConfig` is a class whose fields never change. Its
    `headers` field is a `Config.HeaderDict` object: the dataclass keeps the
    very dict it is given, so the caller and every config built from that
    dict share it, and the translator writes the cookie header into it.
  - The translation is an imperative method (`ToScrappeyPayload` and its
    step methods). It is proved equal to a specification function,
    `PayloadWith`.
  - Module `ConfigLaws` proves the payload's properties from that function:
    - the precedence rules: session, `data` over `body`, `extra` over
      everything;
    - the cookie string;
    - the fixed order of `browserActions`;
    - the country lookup;
    - when the translation raises.
- **The response adapter** (`ScrapeApiResponse`). `Response.NewResponse` is
  the constructor as a total function. The lemmas state each field's
  fallback chain and what the accessors read.
- **The client** (`ScrappeyClient`):
  - construction, with the key check and the concurrency clamp;
  - the keyword predicate and the backoff delay;
  - the classification of API bodies into auth, timeout and request errors;
  - the attempt loop of `async_scrape`;
  - the per-item wrapper of `concurrent_scrape`.

  The attempt loop (`Attempts`) is a method proved equal to `RunOf`. `RunOf`
  is a function of the per-attempt results. A `Run` records how the call
  ended, how many API calls were made, and the delays slept.

The HTTP transport is not modelled. Each attempt's result is a `Transport`
value: a decoded body, an httpx timeout, another httpx error, or a body that
is not JSON. `random.random()` is one number in [0, 1) per attempt. The
exception classes of `exceptions.py` become one `Exception` value that
records its class. The class `Foreign` stands for Python errors that are not
`ScrappeyError`s, such as the `AttributeError` raised on a malformed value.

The code behaves as follows at points where a reader might expect otherwise,
and the model does the same:

- **Every failure except an auth error is retried.**
  - `_is_retryable_error` is defined but `async_scrape` never calls it.
  - `UnlistedErrorIsRetried` shows an unlisted error ("boom") being retried.
- **The jitter applies to the capped delay.**
  - The delay for attempt `a` is `min(cap, base·2^a)` times a factor in
    [0.75, 1.25), so it lies within 75%–125% of the capped delay
    (`RetryDelayBounds`).
  - Once the cap applies, the delay can fall below 75% of the uncapped
    `base·2^a` (`CappedDelayBelowUncappedBound`).
- **Exhausted retries return a response instead of raising.**
  - When every attempt fails, `async_scrape` returns a synthetic response.
  - That response reports status 200 (`ExhaustedResponseReports200`).
- **The delay for attempt 1024 cannot be computed.**
  - `retry_delay * (2 ** attempt)` converts `2 ** 1024` to a double, which
    raises `OverflowError`.
  - With `max_retries` above 1024 and 1025 failed attempts, that error is
    raised inside the `except` handler. It escapes `async_scrape`, and the
    batch too, since it is not a `ScrappeyError` (`OverflowWhenAllFail`).
- **The per-item wrapper catches only `ScrappeyError`.**
  - So an auth error becomes a `ScrapflyScrapeError` item.
  - An `AttributeError` raised while translating a malformed `js_scenario`
    entry is not caught and escapes the batch (`ItemDeliveredIffTranslates`).
- **Two timeouts are ignored.**
  - `ScrapeConfig.timeout` is never read.
  - `_make_request` is called without a timeout, so the client's timeout is
    the only one that applies.
- **The semaphore covers the backoff sleeps.** It is held around the whole of
  `async_scrape`, sleeps included.

## Model

| member | source | states |
|---|---|---|
| Text.IsSubstringIff | scrappey_wrapper/scrappey.py:116-119 | Python's `needle in hay` holds exactly when the needle occurs at some index of the text |
| Config.MapCountryCode | scrappey_wrapper/config.py:123-144 | a code whose upper-cased form is in the table maps to that entry's country; any other code comes back unchanged, case included |
| Config.CountryLookupIgnoresCase | scrappey_wrapper/config.py:144 | a known code gives the same country in lower case, upper case or any mix |
| Config.ConvertJsScenarioAction | scrappey_wrapper/config.py:146-178 | conversion raises exactly when the value under `wait_for_selector`, or under `click` when `wait_for_selector` is absent, is not an object; the error is not a `ScrappeyError`; an action with no recognised key is returned unchanged |
| Config.ScenarioKeyOrder | scrappey_wrapper/config.py:148-177 | the first key present decides the action. `wait_for_selector` gives a selector wait whose timeout defaults to 30000. `click` gives a click that ignores errors iff `ignore_if_not_visible` is truthy. `wait`, `scroll` and `execute_js`/`js` (with `execute_js` preferred) come next, then a type action whose selector is the action's selector |
| Config.Collect | scrappey_wrapper/config.py:87-89 | the collected list exists iff every conversion succeeded; it then holds one object per entry, in order |
| Config.CollectFailsAt | scrappey_wrapper/config.py:87-89 | the first failed conversion decides the error of the whole list |
| Config.ConvertScenario | scrappey_wrapper/config.py:87-89 | the append loop produces the converted scenario, or the first entry's error |
| Config.ScrapeConfig.constructor | scrappey_wrapper/config.py:8-37 | the config holds every field it was given, the headers dict itself rather than a copy; omitted arguments take the dataclass defaults (country `US`, method `GET`, captcha solving on, no extra) |
| Config.ScrapeConfig.HeadersAfter | scrappey_wrapper/config.py:59-66 | the headers dict gains a `Cookie` key only when it was non-empty and there are cookies, and then holds the serialised cookies under it; every other header keeps its value; without cookies the dict is unchanged |
| Config.ScrapeConfig.BrowserActions | scrappey_wrapper/config.py:74-111 | the action list exists exactly when the whole scenario converts |
| Config.ScrapeConfig.PayloadWith | scrappey_wrapper/config.py:39-121 | the payload exists exactly when the browser actions do: converting the scenario is the only step that can raise |
| Config.ScrapeConfig.BasePayload | scrappey_wrapper/config.py:41-57 | the command, url, premium proxy, session and proxy-country steps produce the first stages of `PayloadWith` |
| Config.ScrapeConfig.AttachHeaders | scrappey_wrapper/config.py:59-66 | `customHeaders` is written as `PayloadWith` does, and the shared headers dict becomes `HeadersAfter` of its old contents, because the payload entry and `self.headers` are one dict |
| Config.ScrapeConfig.AttachPostData | scrappey_wrapper/config.py:68-72 | the second write (`data`) replaces the first (`body`) |
| Config.ScrapeConfig.BrowserActionList | scrappey_wrapper/config.py:74-108 | the list built entry by entry is the specified action list, or the first scenario error |
| Config.ScrapeConfig.ToScrappeyPayload | scrappey_wrapper/config.py:39-121 | the payload is `PayloadWith` of the old headers; the shared headers dict becomes `HeadersAfter` of them, even when a later scenario entry raises |
| ConfigLaws.ExtraWins | scrappey_wrapper/config.py:117-119 | every key of `extra` is sent with `extra`'s value, whatever was computed for it |
| ConfigLaws.PayloadCommand | scrappey_wrapper/config.py:41-49 | `cmd`, `url` and `premiumProxy` are always sent; `cmd` is `request.` plus the lower-cased method; `premiumProxy` is true. `extra` can override any of them |
| ConfigLaws.SessionPrecedence | scrappey_wrapper/config.py:51-54 | a session is sent iff the argument or the config's session is truthy; a truthy argument wins; otherwise the config's session is sent |
| ConfigLaws.ProxyCountry | scrappey_wrapper/config.py:56-57 | `proxyCountry` is sent iff a country is given, and holds the mapped country |
| ConfigLaws.CookieHeaderReplaces | scrappey_wrapper/config.py:59-66 | the custom headers are the supplied headers plus `Cookie`; the serialised cookies replace a supplied `Cookie` header; every other header keeps its value |
| ConfigLaws.CustomHeadersSent | scrappey_wrapper/config.py:59-66 | `customHeaders` is sent iff there are headers or cookies, and holds the custom headers |
| ConfigLaws.CookieStringAppend | scrappey_wrapper/config.py:62-63 | each further cookie appends `"; k=v"` to the cookie string, so the pairs keep their order |
| ConfigLaws.PostDataPrecedence | scrappey_wrapper/config.py:68-72 | `postData` is sent iff `data` or `body` is truthy; `data` wins over `body` |
| ConfigLaws.BrowserActionsLength | scrappey_wrapper/config.py:74-108 | the list has one action per optional field that is set (selector, js, auto-scroll, rendering wait), plus one per scenario entry |
| ConfigLaws.BrowserActionsOrder | scrappey_wrapper/config.py:76-89 | the selector wait comes first; the converted scenario entries follow, in their order |
| ConfigLaws.BrowserActionsTrailing | scrappey_wrapper/config.py:91-108 | after the scenario come `execute_js`, then `scroll`, then `wait`, each only when asked for, and nothing after them |
| ConfigLaws.BrowserActionsTail | scrappey_wrapper/config.py:91-108 | the rendering wait is the last action; without one, the scroll is last |
| ConfigLaws.BrowserActionsSent | scrappey_wrapper/config.py:110-111 | `browserActions` is sent iff the list is non-empty, and holds the list |
| ConfigLaws.FourActionExample | scrappey_wrapper/config.py:74-111 | a selector wait, two scenario actions and auto-scroll give exactly four actions, in that order |
| ConfigLaws.SelectorWaitShape | scrappey_wrapper/config.py:76-85 | the selector wait targets the selector with timeout 30000, and has `ignoreErrors` iff `extra["waitForSelectorIgnoreErrors"]` is truthy |
| ConfigLaws.RenderingWaitUnits | scrappey_wrapper/config.py:102-108 | a wait above 100 is divided by 1000; one of 100 or less is passed through; 0 or none adds no wait action |
| ConfigLaws.CaptchaFlag | scrappey_wrapper/config.py:113-115 | `automaticallySolveCaptchas` is sent iff captcha solving is on, and is true |
| ConfigLaws.TranslationFails | scrappey_wrapper/config.py:87-89 | the translation raises iff some scenario entry cannot be converted, and then with the error of the first such entry |
| ConfigLaws.TranslationIdempotent | scrappey_wrapper/config.py:59-66 | after one translation the headers are a fixed point: a second translation writes nothing new and sends the same payload |
| ConfigLaws.CollectErrorFrom | scrappey_wrapper/config.py:87-89 | a failed conversion list fails with the error of one of its entries |
| ConfigLaws.CookieReachesSharingConfig | scrappey_wrapper/config.py:17-66 | once a config with cookies has been translated, another config built from the same non-empty headers dict sends the cookie header too |
| ConfigLaws.SharedHeadersExample | scrappey_wrapper/config.py:17-66 | two configs share the dict `{"User-Agent": "x"}`; translating the one with cookie `sid=1` leaves `Cookie: sid=1` in the caller's dict, and the other config then sends it |
| ConfigLaws.DefaultsPayload | scrappey_wrapper/config.py:13-121 | a config with every default but its url sends exactly `cmd` = `request.get`, the url, `premiumProxy`, `proxyCountry` = `UnitedStates` and `automaticallySolveCaptchas` |
| ConfigLaws.DefaultConfigPayload | scrappey_wrapper/config.py:13-121 | `ScrapeConfig(url)` built with the defaults and a new empty headers dict translates to that five-key payload |
| ConfigLaws.TranslationErrorsAreForeign | scrappey_wrapper/config.py:146-159 | the translation raises only when the browser actions do, and only with an error that is not a `ScrappeyError` |
| Response.LooksLikeJsonIff | scrappey_wrapper/response.py:37 | the inner text is taken for JSON iff its first character that is not white space is `{` or `[` |
| Response.NewResponse | scrappey_wrapper/response.py:19-48 | construction raises exactly when the body is not an object, its `solution` is not an object, or `innerText` is present but not a string; those errors are not `ScrappeyError`s |
| Response.NewResponseBody | scrappey_wrapper/response.py:19-27 | the raw body and the url asked for are kept; html is `html`, else `response`, else `""`; the text defaults to `""` |
| Response.NewResponseContext | scrappey_wrapper/response.py:29-34 | url is `currentUrl`, else `solution["url"]`, else the url asked for. Status is `statusCode`, else the top-level `status`, else 200. Cookies default to `[]`. Headers are `responseHeaders`, else `headers`, else `{}` |
| Response.NewResponseResult | scrappey_wrapper/response.py:36-48 | `scrape_result` holds the content (the text if it looks like JSON, else the html) and the context's status and url |
| Response.ContentAgrees | scrappey_wrapper/response.py:37-61 | the `content` property and `scrape_result["content"]` always agree |
| Response.AccessorsReadContext | scrappey_wrapper/response.py:81-105 | `status_code`, `url`, `cookies` and `headers` return the context's values, so their own defaults never apply; `result` is `{"result": scrape_result}` |
| Response.RequestUrlIsOriginal | scrappey_wrapper/response.py:111-114 | `request.url` is the url asked for, whatever the body reports |
| Response.ExtrasDefault | scrappey_wrapper/response.py:116-128 | `captcha_tokens` is `solution["javascriptReturn"]`, else `[]`; `additional_cost` is `additionalCost`, else `0.0` |
| Scrappey.AnyOccurs | scrappey_wrapper/scrappey.py:116-119 | true iff some keyword occurs in the text |
| Scrappey.RetryableIgnoresCase | scrappey_wrapper/scrappey.py:116-119 | upper- or lower-casing the message does not change whether it is retryable |
| Scrappey.IsRetryableError | scrappey_wrapper/scrappey.py:116-119 | a message is retryable iff some `RETRYABLE_ERRORS` entry occurs in its lower-cased form |
| Scrappey.RetryableExamples | scrappey_wrapper/scrappey.py:24-39 | "TIMEOUT" is retryable; "boom" is not |
| Scrappey.JitterBounds | scrappey_wrapper/scrappey.py:125-127 | with a random number in [0, 1), the jitter keeps a non-negative delay between 75% and 125% of itself |
| Scrappey.ClassifyBody | scrappey_wrapper/scrappey.py:169-180 | an object body is returned unchanged iff it has no `"error"`. A `ScrappeyError` it raises is an auth, timeout or request error that carries the body's error message and the body itself |
| Scrappey.AuthBeforeTimeout | scrappey_wrapper/scrappey.py:169-174 | code `CODE-0001` gives an auth error even when the message mentions a timeout |
| Scrappey.TimeoutIffKeyword | scrappey_wrapper/scrappey.py:169-178 | otherwise the error is a timeout iff the lower-cased message contains "timeout", and a request error iff it does not; the code defaults to `"UNKNOWN"` |
| Scrappey.TimeoutAnyCase | scrappey_wrapper/scrappey.py:169-178 | two messages that agree once lower-cased give the same kind of error, whatever their case |
| Scrappey.MixedCaseTimeout | scrappey_wrapper/scrappey.py:169-178 | the body `{"error": "TimeOut"}` raises a timeout error with code `"UNKNOWN"` that carries the body |
| Scrappey.MakeRequest | scrappey_wrapper/scrappey.py:148-185 | only a decoded body can succeed, and then as itself. A transport timeout gives a timeout error with no code; another HTTP error gives a request error with no code; a body that is not JSON raises a non-`ScrappeyError` |
| Scrappey.AttemptErrorsHaveText | scrappey_wrapper/scrappey.py:209-217 | every non-auth error an attempt raises has a string message, so `str(e)` is that message |
| Scrappey.FirstStop | scrappey_wrapper/scrappey.py:208-214 | the index of the first attempt that succeeds or raises an auth error; every earlier attempt failed otherwise |
| Scrappey.ExhaustedResponseConstructed | scrappey_wrapper/scrappey.py:232-237 | the response built after exhausted retries is what the response constructor makes of the synthetic body |
| Scrappey.ExhaustedResponseReports200 | scrappey_wrapper/scrappey.py:234-236 | that body's `"status": 0` sits inside `solution`, so the response reports status 200. Its html and content are empty, its url is the one asked for, and its `error` is the last error's message (`"None"` without one) |
| Scrappey.WrapOutcome | scrappey_wrapper/scrappey.py:246-257 | a returned response passes through. A raised `ScrappeyError` becomes a `ScrapflyScrapeError` with its message and code, whose `api_response` names the config's url. Any other exception escapes unchanged |
| Scrappey.ScrappeyClient.constructor | scrappey_wrapper/scrappey.py:88-99 | the concurrency is clamped into 1..100; a value below 1 gives 1, a value above 100 gives 100, and any other value is kept; the other settings are stored; the defaults are 100, 120, 3, 1.0 and 30.0 |
| Scrappey.ScrappeyClient.BaseDelayBounds | scrappey_wrapper/scrappey.py:121-124 | the base delay is non-negative and never exceeds the cap nor `retry_delay·2^attempt` |
| Scrappey.ScrappeyClient.RetryDelay | scrappey_wrapper/scrappey.py:121-127 | the delay is computed exactly for attempts below 1024; from 1024 on it raises `OverflowError`, which is not a `ScrappeyError`. Its values are bounded by `RetryDelayBounds` |
| Scrappey.ScrappeyClient.RetryDelayBounds | scrappey_wrapper/scrappey.py:121-127 | below attempt 1024 the delay lies within 75%–125% of the base delay, so between 0 and 125% of the cap |
| Scrappey.ScrappeyClient.BaseDelayGrows | scrappey_wrapper/scrappey.py:123-124 | the base delay never shrinks from one attempt to the next |
| Scrappey.ScrappeyClient.CappedDelayBelowUncappedBound | scrappey_wrapper/scrappey.py:123-127 | with delay 1, cap 30 and attempt 5, the smallest jitter gives 22.5, below 75% of the uncapped 32 |
| Scrappey.ScrappeyClient.RunStopsAt | scrappey_wrapper/scrappey.py:208-230 | the first attempt that succeeds or raises an auth error ends the run with its response or error, after one sleep per earlier attempt, unless it comes after attempt 1024, whose delay overflows first |
| Scrappey.ScrappeyClient.RunExhausted | scrappey_wrapper/scrappey.py:215-237 | when every attempt fails otherwise, a run of at most 1025 attempts makes them all and returns the response built from the last error, without a final sleep; a longer one overflows after 1025 calls |
| Scrappey.ScrappeyClient.RunOverflows | scrappey_wrapper/scrappey.py:121-127 | attempt 1024 failing without an auth error, with a retry left, ends the run with the `OverflowError` after 1025 calls and 1024 sleeps |
| Scrappey.ScrappeyClient.CallApi | scrappey_wrapper/scrappey.py:209-211 | the attempt numbered `attempt` uses that attempt's transport result |
| Scrappey.ScrappeyClient.Attempts | scrappey_wrapper/scrappey.py:207-237 | the loop's calls, sleeps and result are those of `RunOf` over the attempts' results, the delay's overflow included |
| Scrappey.ScrappeyClient.AsyncScrape | scrappey_wrapper/scrappey.py:200-237 | a failed translation raises before any call; otherwise the attempt loop runs. The config's headers change as the translation changes them |
| Scrappey.ScrappeyClient.ItemOfTranslation | scrappey_wrapper/scrappey.py:246-257 | the item for a config does not depend on the headers or session it is translated with |
| Scrappey.ScrappeyClient.ScrapeWithSemaphore | scrappey_wrapper/scrappey.py:246-257 | the per-item wrapper yields `WrapOutcome` of `async_scrape`'s run, and leaves the config's headers as the translation does |
| Scrappey.ScrappeyClient.ConcurrentScrape | scrappey_wrapper/scrappey.py:239-263 | one item per config, in input order, each the wrapper's item for that config. A non-`ScrappeyError` stops the batch, and is the escaping error of the first config that has no item |
| Scrappey.AttemptsBounded | scrappey_wrapper/scrappey.py:208 | a run calls the API at most `max_retries + 1` times, and at least once when the payload translates and `max_retries >= 0` |
| Scrappey.FirstStopEndsRun | scrappey_wrapper/scrappey.py:208-214 | the first success is returned and the first auth error re-raised, after exactly `k + 1` calls, when `k` is at most 1024; a later one is never reached, because the delay overflows after 1025 calls |
| Scrappey.OnlyAuthOrTranslationRaises | scrappey_wrapper/scrappey.py:205-216 | `async_scrape` raises only an auth error, the translation's own error, or the delay's `OverflowError`. The overflow happens exactly when attempts 0 to 1024 all fail otherwise with a retry left, and the run is then `OverflowRun` |
| Scrappey.ExhaustedRun | scrappey_wrapper/scrappey.py:215-237 | when every attempt fails otherwise and `max_retries` is at most 1024, all `max_retries + 1` calls are made and the exhausted response of the last error is returned; with more retries the run overflows after 1025 calls |
| Scrappey.SleepsBetweenAttempts | scrappey_wrapper/scrappey.py:220-230 | the run sleeps once between consecutive calls and never after the last; the `i`-th sleep is attempt `i`'s delay, which was computed without overflow |
| Scrappey.FourCallsWhenAllFail | scrappey_wrapper/scrappey.py:208-237 | with three retries and four HTTP errors: four calls, three sleeps and a returned response |
| Scrappey.UnlistedErrorIsRetried | scrappey_wrapper/scrappey.py:215-230 | an API error "boom" is not retryable by keyword, yet is followed by a second attempt |
| Scrappey.BoomIsRequestError | scrappey_wrapper/scrappey.py:169-178 | the attempt that receives `{"error": "boom"}` fails with a request error, code `"UNKNOWN"` |
| Scrappey.BoomClassified | scrappey_wrapper/scrappey.py:169-178 | the body `{"error": "boom"}` classifies as a request error carrying the body |
| Scrappey.ItemDeliveredIffTranslates | scrappey_wrapper/scrappey.py:246-257 | the wrapper yields an item iff the config's translation succeeds and its delay does not overflow: the attempts raise no other non-`ScrappeyError` |
| Scrappey.BatchDeliversAll | scrappey_wrapper/scrappey.py:259-263 | when every config translates, a config yields an item iff its delay does not overflow |
| Scrappey.OverflowWhenAllFail | scrappey_wrapper/scrappey.py:121-127 | with 1025 retries and only HTTP errors: 1025 calls, 1024 sleeps, then `OverflowError`, which also escapes the per-item wrapper |
| Scrappey.NewClient | scrappey_wrapper/scrappey.py:77-99 | construction raises the auth error exactly when neither a key argument nor an environment key is truthy; otherwise the client holds the first truthy key; a concurrency below 1 becomes 1, one above 100 becomes 100, any other is kept; the timeout, retries and delays are stored as given |
| Scrappey.DefaultClient | scrappey_wrapper/scrappey.py:67-99 | a client built from a non-empty key alone has concurrency 100, timeout 120, three retries, base delay 1.0 and cap 30.0; an empty key raises when there is no environment key |

## Left out

- HTTP transport: the httpx client, the POST itself and JSON decoding are not modelled. Each attempt's result is a `Transport` value. The transport results do not depend on the payload sent.
- Concurrency: `asyncio.Semaphore`, `asyncio.as_completed` and the async generator are not modelled. The batch runs its configs one after the other. Items are listed in input order, whereas the source yields them in completion order.
- `asyncio.sleep`: the delays are recorded in the run, not slept.
- Floating point: delays and the `rendering_wait / 1000` division use exact reals, not IEEE doubles. `retry_delay` is taken to be a float, as annotated. With an int the product `retry_delay * 2 ** attempt` is an exact int and does not overflow. The conversion overflow from attempt 1024 on is modelled.
- `random.random()` is a parameter, one number per attempt.
- Environment: the `SCRAPPEY_KEY` lookup is an optional input of `NewClient`.
- Debug output: the `SCRAPPEY_DEBUG` read, debug logging, `print` warnings and `_extract_title` (which relies on Python's `re`) are not modelled.
- Debug mode: the model is the client with `debug` off. With it on, `_make_request` reads `data["solution"]` with `.get` before checking for `"error"` (scrappey.py:159-167). A body whose `solution` is not a dict then raises `AttributeError` there, which `async_scrape` retries even when the body carries an auth error.
- Default headers dict: `field(default_factory=dict)` allocates a new dict for each config. The model's constructor takes the `HeaderDict` as an argument, so a caller wanting the default allocates an empty one first, as `DefaultConfigPayload` does.
- Thin wrappers: `create_session`, `destroy_session` and the synchronous `scrape` wrap the modelled operations and are not modelled themselves.
- Library code: the parsel `Selector` and its lazy cache are foreign library code.
- `__init__.py` only re-exports names.
- Case mapping: `lower`/`upper` map ASCII letters only; Python's full Unicode case mapping is not modelled.
- Dict order: JSON objects are maps, so the key order of the payload is not modelled. Cookies keep their order as a sequence of pairs.
- Unread config fields: `asp`, `render_js`, `proxy_pool`, `lang`, `cache`, `cache_ttl`, `timeout`, `retry`, `screenshots` and `debug` are not represented. The translation never reads them.
- Client timeout: it is stored but only matters to the transport.
- WrapOutcome: keeps the error's `message` value where Python applies `str()`. The two differ only for an auth error whose API message is not a string.
- ConcurrentScrape: does not state which headers each config holds after the batch. Each call's write to its config's headers is stated by `AsyncScrape` and `ScrapeWithSemaphore`.
