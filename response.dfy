/** The response adapter (`ScrapeApiResponse`): a decoded Scrappey body seen
    through the ScrapFly response interface. Every field is computed once,
    at construction, from chains of `dict.get` fallbacks. */
module Response {

  import opened Wrappers
  import opened Text
  import opened Json
  import opened Exceptions

  /** `RequestInfo`: only the URL the caller asked for. */
  datatype RequestInfo = RequestInfo(url: string)

  /** A constructed `ScrapeApiResponse`. `html` may be any JSON value (it is
      whatever the body holds); `text` is the inner text, which the
      constructor has already required to be a string. */
  datatype ScrapeApiResponse = ScrapeApiResponse(
    rawResponse: map<string, Json>,
    originalUrl: string,
    html: Json,
    text: string,
    context: map<string, Json>,
    scrapeResult: map<string, Json>)
  {
    /** The `content` property. */
    function Content(): Json {
      if text != "" && LooksLikeJson(text) then JStr(text) else html
    }

    /** The `status_code` property. */
    function StatusCode(): Json {
      Get(context, "status_code", JInt(200))
    }

    /** The `url` property. */
    function Url(): Json {
      Get(context, "url", JStr(originalUrl))
    }

    /** The `cookies` property. */
    function Cookies(): Json {
      Get(context, "cookies", JArr([]))
    }

    /** The `headers` property. */
    function Headers(): Json {
      Get(context, "headers", JObj(map[]))
    }

    /** The `result` property: ScrapFly's nested `{"result": ...}` shape. */
    function Result(): map<string, Json> {
      map["result" := JObj(scrapeResult)]
    }

    /** The `request` property. */
    function Request(): RequestInfo {
      RequestInfo(originalUrl)
    }

    /** The `captcha_tokens` property; it re-reads the raw body. The
        constructor has checked that its `solution`, when present, is an
        object. */
    function CaptchaTokens(): Json
      requires SolutionOf(rawResponse).JObj?
    {
      Get(SolutionOf(rawResponse).fields, "javascriptReturn", JArr([]))
    }

    /** The `additional_cost` property. */
    function AdditionalCost(): Json {
      Get(rawResponse, "additionalCost", JReal(0.0))
    }
  }

  /** `raw.get("solution", {})`. */
  function SolutionOf(raw: map<string, Json>): Json {
    Get(raw, "solution", JObj(map[]))
  }

  predicate IsJsonOpener(c: char) {
    c == '{' || c == '['
  }

  /** `s.strip().startswith(('{', '['))`: the inner text is taken for JSON. */
  predicate LooksLikeJson(s: string) {
    Strip(s) != [] && IsJsonOpener(Strip(s)[0])
  }

  /** Every character before index `i` is white space. */
  predicate BlankBefore(s: string, i: nat)
    requires i <= |s|
  {
    forall j :: 0 <= j < i ==> IsSpace(s[j])
  }

  /** The index of the first character that is not white space (`|s|` when
      there is none). */
  function FirstNonBlank(s: string): (k: nat)
    ensures k <= |s| && BlankBefore(s, k)
    ensures k < |s| ==> !IsSpace(s[k])
  {
    if s != [] && IsSpace(s[0]) then 1 + FirstNonBlank(s[1..]) else 0
  }

  /** Left-stripping drops exactly the leading white space. */
  lemma {:induction false} LStripDropsBlank(s: string)
    ensures LStrip(s) == s[FirstNonBlank(s)..]
  {
    if s != [] && IsSpace(s[0]) {
      LStripDropsBlank(s[1..]);
      assert s[1..][FirstNonBlank(s[1..])..] == s[FirstNonBlank(s)..];
    }
  }

  /** Right-stripping keeps a leading character that is not white space. */
  lemma {:induction false} RStripKeepsHead(t: string)
    requires t != [] && !IsSpace(t[0])
    ensures RStrip(t) != [] && RStrip(t)[0] == t[0]
    decreases |t|
  {
    if IsSpace(t[|t| - 1]) {
      RStripKeepsHead(t[..|t| - 1]);
    }
  }

  /** The inner text looks like JSON exactly when its first character that
      is not white space opens an object or an array. */
  lemma LooksLikeJsonIff(s: string)
    ensures LooksLikeJson(s) <==>
      FirstNonBlank(s) < |s| && IsJsonOpener(s[FirstNonBlank(s)])
  {
    var k := FirstNonBlank(s);
    LStripDropsBlank(s);
    if k < |s| {
      RStripKeepsHead(s[k..]);
      assert Strip(s)[0] == s[k];
    } else {
      assert Strip(s) == [];
    }
  }

  /** The `ScrapeApiResponse` constructor. Python raises an `AttributeError`
      when the body is not an object, when its `solution` is not an object,
      or when `innerText` is present but not a string (it calls `.strip()`
      on it); those are the `Failure` cases. */
  function NewResponse(raw: Json, originalUrl: string): (r: Result<ScrapeApiResponse, Exception>)
    ensures r.Failure? <==>
      !raw.JObj? || !SolutionOf(raw.fields).JObj?
      || !Get(SolutionOf(raw.fields).fields, "innerText", JStr("")).JStr?
    ensures r.Failure? ==> r.error.kind == Foreign
  {
    if !raw.JObj? then
      Failure(ForeignError(NoAttribute(raw, "get")))
    else
      var solution := SolutionOf(raw.fields);
      if !solution.JObj? then
        Failure(ForeignError(NoAttribute(solution, "get")))
      else
        var sol := solution.fields;
        var html := Get(sol, "html", Get(sol, "response", JStr("")));
        var innerText := Get(sol, "innerText", JStr(""));
        var context := map[
          "url" := Get(sol, "currentUrl", Get(sol, "url", JStr(originalUrl))),
          "status_code" := Get(sol, "statusCode", Get(raw.fields, "status", JInt(200))),
          "cookies" := Get(sol, "cookies", JArr([])),
          "headers" := Get(sol, "responseHeaders", Get(sol, "headers", JObj(map[])))];
        if !innerText.JStr? then
          Failure(ForeignError(NoAttribute(innerText, "strip")))
        else
          var content := if LooksLikeJson(innerText.s) then innerText else html;
          var scrapeResult := map[
            "browser_data" := JObj(map[
              "xhr_call" := Get(sol, "xhrCalls", JArr([])),
              "javascript_evaluation_result" := Get(sol, "jsResult", JNull),
              "screenshot" := Get(raw.fields, "screenshotUrl", JNull)]),
            "content" := content,
            "status_code" := context["status_code"],
            "url" := context["url"]];
          Success(ScrapeApiResponse(raw.fields, originalUrl, html, innerText.s, context, scrapeResult))
  }

  /** The raw body, the url asked for, the html and the text, each through
      its fallback chain. */
  lemma NewResponseBody(raw: Json, originalUrl: string)
    requires NewResponse(raw, originalUrl).Success?
    ensures var sol := SolutionOf(raw.fields).fields;
      var resp := NewResponse(raw, originalUrl).value;
      && resp.rawResponse == raw.fields
      && resp.originalUrl == originalUrl
      // html: solution["html"], else solution["response"], else ""
      && resp.html == (if "html" in sol then sol["html"]
                       else if "response" in sol then sol["response"]
                       else JStr(""))
      && resp.text == (if "innerText" in sol then sol["innerText"].s else "")
  {
  }

  /** The context: url, status, cookies and headers, each through its
      fallback chain. */
  lemma NewResponseContext(raw: Json, originalUrl: string)
    requires NewResponse(raw, originalUrl).Success?
    ensures var sol := SolutionOf(raw.fields).fields;
      var resp := NewResponse(raw, originalUrl).value;
      && resp.context.Keys == {"url", "status_code", "cookies", "headers"}
      // url: currentUrl, else solution["url"], else the URL asked for
      && resp.context["url"] == (if "currentUrl" in sol then sol["currentUrl"]
                                 else if "url" in sol then sol["url"]
                                 else JStr(originalUrl))
      // status: solution["statusCode"], else the TOP-LEVEL "status", else 200
      && resp.context["status_code"] == (if "statusCode" in sol then sol["statusCode"]
                                         else if "status" in raw.fields then raw.fields["status"]
                                         else JInt(200))
      && resp.context["cookies"] == (if "cookies" in sol then sol["cookies"] else JArr([]))
      && resp.context["headers"] == (if "responseHeaders" in sol then sol["responseHeaders"]
                                     else if "headers" in sol then sol["headers"]
                                     else JObj(map[]))
  {
  }

  /** `scrape_result`: the content, and the context's status and url. */
  lemma NewResponseResult(raw: Json, originalUrl: string)
    requires NewResponse(raw, originalUrl).Success?
    ensures var resp := NewResponse(raw, originalUrl).value;
      && resp.scrapeResult.Keys == {"browser_data", "content", "status_code", "url"}
      && resp.scrapeResult["content"] == (if LooksLikeJson(resp.text) then JStr(resp.text) else resp.html)
      && resp.scrapeResult["status_code"] == resp.context["status_code"]
      && resp.scrapeResult["url"] == resp.context["url"]
  {
  }

  /** The `content` property and `scrape_result["content"]` always agree,
      although the property also tests that the text is non-empty. */
  lemma ContentAgrees(raw: Json, originalUrl: string)
    requires NewResponse(raw, originalUrl).Success?
    ensures var resp := NewResponse(raw, originalUrl).value;
      resp.Content() == resp.scrapeResult["content"]
  {
    NewResponseBody(raw, originalUrl);
    NewResponseContext(raw, originalUrl);
    NewResponseResult(raw, originalUrl);
    var resp := NewResponse(raw, originalUrl).value;
    if resp.text == "" {
      assert Strip(resp.text) == "";
    }
  }

  /** `status_code`, `url`, `cookies` and `headers` read the context the
      constructor built, so their own defaults never apply; `result` wraps
      `scrape_result`, whose status and url are the context's. */
  lemma AccessorsReadContext(raw: Json, originalUrl: string)
    requires NewResponse(raw, originalUrl).Success?
    ensures var resp := NewResponse(raw, originalUrl).value;
      && resp.StatusCode() == resp.context["status_code"] == resp.scrapeResult["status_code"]
      && resp.Url() == resp.context["url"] == resp.scrapeResult["url"]
      && resp.Cookies() == resp.context["cookies"]
      && resp.Headers() == resp.context["headers"]
      && resp.Result() == map["result" := JObj(resp.scrapeResult)]
  {
    NewResponseBody(raw, originalUrl);
    NewResponseContext(raw, originalUrl);
    NewResponseResult(raw, originalUrl);
  }

  /** `request.url` is the URL the caller asked for, whatever URL the body
      reports. */
  lemma RequestUrlIsOriginal(raw: Json, originalUrl: string)
    requires NewResponse(raw, originalUrl).Success?
    ensures NewResponse(raw, originalUrl).value.Request().url == originalUrl
  {
    NewResponseBody(raw, originalUrl);
    NewResponseContext(raw, originalUrl);
    NewResponseResult(raw, originalUrl);
  }

  /** `captcha_tokens` defaults to `[]` and `additional_cost` to `0.0`. */
  lemma ExtrasDefault(raw: Json, originalUrl: string)
    requires NewResponse(raw, originalUrl).Success?
    ensures var resp := NewResponse(raw, originalUrl).value;
      var sol := SolutionOf(raw.fields).fields;
      && resp.CaptchaTokens() == (if "javascriptReturn" in sol then sol["javascriptReturn"] else JArr([]))
      && resp.AdditionalCost() == (if "additionalCost" in raw.fields then raw.fields["additionalCost"] else JReal(0.0))
  {
    NewResponseBody(raw, originalUrl);
    NewResponseContext(raw, originalUrl);
    NewResponseResult(raw, originalUrl);
  }
}
