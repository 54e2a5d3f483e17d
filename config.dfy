/** The request translator (`ScrapeConfig.to_scrappey_payload`): a ScrapFly
    style scrape configuration becomes a Scrappey request payload. */
module Config {

  import opened Wrappers
  import opened Text
  import opened Json
  import opened Exceptions

  /** Python's truth value of an `Optional[str]`. */
  predicate Present(o: Option<string>) {
    o.Some? && o.value != ""
  }

  /** The table of `_map_country_code`: two-letter codes to Scrappey's
      country names. The default code, US, is listed last so that its
      lookup needs no comparison with the other keys. */
  function CountryNames(): map<string, string> {
    map[
      "CA" := "Canada", "GB" := "UnitedKingdom",
      "UK" := "UnitedKingdom", "DE" := "Germany", "FR" := "France",
      "ES" := "Spain", "IT" := "Italy", "NL" := "Netherlands",
      "AU" := "Australia", "JP" := "Japan", "BR" := "Brazil",
      "MX" := "Mexico", "IN" := "India", "CN" := "China",
      "RU" := "Russia", "KR" := "SouthKorea", "SG" := "Singapore",
      "HK" := "HongKong", "TW" := "Taiwan", "PL" := "Poland",
      "SE" := "Sweden", "NO" := "Norway", "DK" := "Denmark",
      "FI" := "Finland", "CH" := "Switzerland", "AT" := "Austria",
      "BE" := "Belgium", "IE" := "Ireland", "PT" := "Portugal",
      "GR" := "Greece", "CZ" := "CzechRepublic", "RO" := "Romania",
      "HU" := "Hungary", "TR" := "Turkey", "IL" := "Israel",
      "AE" := "UnitedArabEmirates", "SA" := "SaudiArabia",
      "ZA" := "SouthAfrica", "AR" := "Argentina", "CL" := "Chile",
      "CO" := "Colombia", "NZ" := "NewZealand", "TH" := "Thailand",
      "PH" := "Philippines", "MY" := "Malaysia", "ID" := "Indonesia",
      "VN" := "Vietnam", "US" := "UnitedStates"]
  }

  /** `_map_country_code`: look the upper-cased code up; an unknown code
      comes back as it was given, case included. */
  function MapCountryCode(code: string): (r: string)
    ensures r == code || r in CountryNames().Values
    ensures Upper(code) !in CountryNames() ==> r == code
    ensures Upper(code) in CountryNames() ==> r == CountryNames()[Upper(code)]
  {
    if Upper(code) in CountryNames() then CountryNames()[Upper(code)] else code
  }

  /** The lookup ignores case: a known code gives the same country in lower
      case, upper case or any mix. */
  lemma CountryLookupIgnoresCase(code: string)
    requires Upper(code) in CountryNames()
    ensures MapCountryCode(Lower(code)) == MapCountryCode(Upper(code)) == MapCountryCode(code)
  {
    UpperOfLower(code);
    UpperIdempotent(code);
  }

  /** The keys `_convert_js_scenario_action` recognises, in the order it
      tests them. */
  predicate IsScenarioAction(action: map<string, Json>) {
    "wait_for_selector" in action || "click" in action || "wait" in action
    || "scroll" in action || "execute_js" in action || "js" in action
    || ("type" in action && "selector" in action)
  }

  /** `_convert_js_scenario_action`: the first recognised key decides the
      browser action. Python raises an `AttributeError` when the value under
      `wait_for_selector` or `click` is not an object. */
  function ConvertJsScenarioAction(action: map<string, Json>): (r: Result<map<string, Json>, Exception>)
    ensures r.Failure? <==>
      || ("wait_for_selector" in action && !action["wait_for_selector"].JObj?)
      || ("wait_for_selector" !in action && "click" in action && !action["click"].JObj?)
    ensures r.Failure? ==> r.error.kind == Foreign
    // an action that matches no key passes through unchanged
    ensures !IsScenarioAction(action) ==> r == Success(action)
  {
    if "wait_for_selector" in action then
      var w := action["wait_for_selector"];
      if !w.JObj? then Failure(ForeignError(NoAttribute(w, "get")))
      else Success(map[
        "type" := JStr("wait_for_selector"),
        "cssSelector" := Get(w.fields, "selector", JNull),
        "timeout" := Get(w.fields, "timeout", JInt(30000))])
    else if "click" in action then
      var c := action["click"];
      if !c.JObj? then Failure(ForeignError(NoAttribute(c, "get")))
      else
        var result := map["type" := JStr("click"), "cssSelector" := Get(c.fields, "selector", JNull)];
        if Truthy(Get(c.fields, "ignore_if_not_visible", JNull))
        then Success(result["ignoreErrors" := JBool(true)])
        else Success(result)
    else if "wait" in action then
      Success(map["type" := JStr("wait"), "wait" := action["wait"]])
    else if "scroll" in action then
      var s := action["scroll"];
      if s.JObj? && Truthy(Get(s.fields, "selector", JNull))
      then Success(map["type" := JStr("scroll"), "cssSelector" := s.fields["selector"]])
      else Success(map["type" := JStr("scroll")])
    else if "execute_js" in action || "js" in action then
      Success(map["type" := JStr("execute_js"), "code" := Get(action, "execute_js", Get(action, "js", JStr("")))])
    else if "type" in action && "selector" in action then
      Success(map[
        "type" := JStr("type"),
        "cssSelector" := action["selector"],
        "text" := Get(action, "text", JStr(""))])
    else
      Success(action)
  }

  /** A browser action of the given `type`. */
  predicate HasType(action: map<string, Json>, t: string) {
    "type" in action && action["type"] == JStr(t)
  }

  /** The keys are checked in a fixed order, and the first one present
      decides the kind of browser action produced. */
  lemma ScenarioKeyOrder(action: map<string, Json>)
    ensures var r := ConvertJsScenarioAction(action);
      "wait_for_selector" in action && r.Success? ==>
        var w := action["wait_for_selector"].fields;
        && HasType(r.value, "wait_for_selector")
        && "timeout" in r.value
        && r.value["timeout"] == (if "timeout" in w then w["timeout"] else JInt(30000))
    ensures var r := ConvertJsScenarioAction(action);
      "wait_for_selector" !in action && "click" in action && r.Success? ==>
        && HasType(r.value, "click")
        && ("ignoreErrors" in r.value <==> Truthy(Get(action["click"].fields, "ignore_if_not_visible", JNull)))
    ensures "wait_for_selector" !in action && "click" !in action && "wait" in action ==>
      ConvertJsScenarioAction(action) == Success(map["type" := JStr("wait"), "wait" := action["wait"]])
    ensures var r := ConvertJsScenarioAction(action);
      "wait_for_selector" !in action && "click" !in action && "wait" !in action && "scroll" in action ==>
        r.Success? && HasType(r.value, "scroll")
    ensures ("wait_for_selector" !in action && "click" !in action && "wait" !in action
             && "scroll" !in action && ("execute_js" in action || "js" in action)) ==>
      ConvertJsScenarioAction(action) == Success(map[
        "type" := JStr("execute_js"),
        "code" := if "execute_js" in action then action["execute_js"] else action["js"]])
    ensures var r := ConvertJsScenarioAction(action);
      "wait_for_selector" !in action && "click" !in action && "wait" !in action
      && "scroll" !in action && "execute_js" !in action && "js" !in action
      && "type" in action && "selector" in action ==>
        && r.Success? && HasType(r.value, "type")
        && "cssSelector" in r.value && r.value["cssSelector"] == action["selector"]
  {
  }

  /** The converted actions, one per entry and in order, before any is
      appended. */
  function Conversions(actions: seq<map<string, Json>>): (r: seq<Result<map<string, Json>, Exception>>)
    ensures |r| == |actions|
    ensures forall i :: 0 <= i < |actions| ==> r[i] == ConvertJsScenarioAction(actions[i])
  {
    if actions == [] then []
    else Conversions(actions[..|actions| - 1]) + [ConvertJsScenarioAction(actions[|actions| - 1])]
  }

  /** Appending converted actions in order; the first conversion that
      raised stops the whole translation with its error. */
  function Collect(rs: seq<Result<map<string, Json>, Exception>>): (r: Result<seq<Json>, Exception>)
    ensures r.Success? <==> forall i :: 0 <= i < |rs| ==> rs[i].Success?
    ensures r.Success? ==>
      && |r.value| == |rs|
      && forall i :: 0 <= i < |rs| ==> r.value[i] == JObj(rs[i].value)
  {
    if rs == [] then Success([])
    else
      var converted :- Collect(rs[..|rs| - 1]);
      var last :- rs[|rs| - 1];
      Success(converted + [JObj(last)])
  }

  /** Converting a whole `js_scenario`. */
  function ConvertAll(actions: seq<map<string, Json>>): Result<seq<Json>, Exception> {
    Collect(Conversions(actions))
  }

  /** One more conversion that succeeds extends the collected list. */
  lemma CollectSnoc(rs: seq<Result<map<string, Json>, Exception>>, i: nat)
    requires i < |rs|
    requires Collect(rs[..i]).Success? && rs[i].Success?
    ensures Collect(rs[..i + 1]) == Success(Collect(rs[..i]).value + [JObj(rs[i].value)])
  {
    assert rs[..i + 1][..i] == rs[..i];
  }

  /** The first conversion that fails decides the error of the whole list. */
  lemma {:induction false} CollectFailsAt(rs: seq<Result<map<string, Json>, Exception>>, i: nat)
    requires i < |rs|
    requires Collect(rs[..i]).Success? && rs[i].Failure?
    ensures Collect(rs) == Failure(rs[i].error)
    decreases |rs|
  {
    var front := rs[..|rs| - 1];
    if i < |rs| - 1 {
      assert front[..i] == rs[..i];
      CollectFailsAt(front, i);
    } else {
      assert front == rs[..i];
    }
  }

  /** The conversion loop of the translation: converts the scenario entry
      by entry and stops at the first entry that raises. */
  method ConvertScenario(scenario: seq<map<string, Json>>) returns (r: Result<seq<Json>, Exception>)
    ensures r == ConvertAll(scenario)
  {
    var converted: seq<Json> := [];
    ghost var conversions := Conversions(scenario);
    for i := 0 to |scenario|
      invariant Collect(conversions[..i]) == Success(converted)
    {
      var action := ConvertJsScenarioAction(scenario[i]);
      if action.Failure? {
        CollectFailsAt(conversions, i);
        return Failure(action.error);
      }
      CollectSnoc(conversions, i);
      converted := converted + [JObj(action.value)];
    }
    assert conversions[..|scenario|] == conversions;
    return Success(converted);
  }

  /** `"; ".join(f"{k}={v}" for k, v in cookies.items())`, in dict order. */
  function CookieString(cookies: seq<(string, string)>): (r: string)
    ensures cookies == [] ==> r == ""
    ensures |cookies| == 1 ==> r == cookies[0].0 + "=" + cookies[0].1
  {
    Join(seq(|cookies|, i requires 0 <= i < |cookies| => cookies[i].0 + "=" + cookies[i].1), "; ")
  }

  /** Merging an empty map changes nothing, a step the solver takes only
      at great cost inside a larger proof. */
  lemma MergeEmpty<K, V>(m: map<K, V>, e: map<K, V>)
    requires e == map[]
    ensures m + e == m
  {
    assert (m + e).Keys == m.Keys;
  }

  /** Concatenation regrouped, a step the solver does not take by itself. */
  lemma AppendThree<T>(s: seq<T>, a: seq<T>, b: seq<T>, c: seq<T>)
    ensures s + a + b + c == s + (a + b + c)
  {
  }

  /** A `Dict[str, str]` of request headers. The dataclass keeps the very
      dict it is given, so the caller and every config built from the same
      dict share it, and a write through one is seen by all. */
  class HeaderDict {
    var entries: map<string, string>

    constructor(entries: map<string, string>)
      ensures this.entries == entries
    {
      this.entries := entries;
    }
  }

  /** A `ScrapeConfig`. Its fields never change; only the contents of its
      `headers` dict do: the translation writes the cookie header into that
      dict. The ScrapFly fields the translation never reads (asp,
      render_js, proxy_pool, lang, cache, cache_ttl, timeout, retry,
      screenshots, debug) are not represented. The parameters take the
      dataclass's defaults; the default `headers` is a new empty dict,
      which the caller allocates. */
  class ScrapeConfig {
    const url: string
    const country: string
    const headers: HeaderDict
    const httpMethod: string
    const body: Option<string>
    const data: Option<map<string, Json>>
    const cookies: Option<seq<(string, string)>>
    const waitForSelector: Option<string>
    const js: Option<string>
    const jsScenario: Option<seq<map<string, Json>>>
    const autoScroll: bool
    const session: Option<string>
    const renderingWait: Option<int>
    const autoSolveCaptcha: bool
    const extra: map<string, Json>

    constructor(url: string, headers: HeaderDict, country: string := "US", httpMethod: string := "GET",
                body: Option<string> := None, data: Option<map<string, Json>> := None,
                cookies: Option<seq<(string, string)>> := None, waitForSelector: Option<string> := None,
                js: Option<string> := None, jsScenario: Option<seq<map<string, Json>>> := None,
                autoScroll: bool := false, session: Option<string> := None, renderingWait: Option<int> := None,
                autoSolveCaptcha: bool := true, extra: map<string, Json> := map[])
      ensures this.url == url && this.country == country && this.headers == headers
      ensures this.httpMethod == httpMethod && this.body == body && this.data == data
      ensures this.cookies == cookies && this.waitForSelector == waitForSelector
      ensures this.js == js && this.jsScenario == jsScenario && this.autoScroll == autoScroll
      ensures this.session == session && this.renderingWait == renderingWait
      ensures this.autoSolveCaptcha == autoSolveCaptcha && this.extra == extra
    {
      this.url, this.country, this.headers, this.httpMethod := url, country, headers, httpMethod;
      this.body, this.data, this.cookies := body, data, cookies;
      this.waitForSelector, this.js, this.jsScenario := waitForSelector, js, jsScenario;
      this.autoScroll, this.session, this.renderingWait := autoScroll, session, renderingWait;
      this.autoSolveCaptcha, this.extra := autoSolveCaptcha, extra;
    }

    predicate HasCookies() {
      cookies.Some? && cookies.value != []
    }

    predicate HasData() {
      data.Some? && data.value != map[]
    }

    predicate HasRenderingWait() {
      renderingWait.Some? && renderingWait.value != 0
    }

    /** The scenario to convert (`None` and `[]` are both skipped). */
    function Scenario(): seq<map<string, Json>> {
      if jsScenario.Some? then jsScenario.value else []
    }

    /** The custom headers sent for a given `headers` dict: the supplied
        headers with `Cookie` replaced by the serialised cookies. */
    function CustomHeaders(h: map<string, string>): map<string, string> {
      if HasCookies() then h["Cookie" := CookieString(cookies.value)] else h
    }

    /** What `self.headers` holds after a translation: the dict is shared
        with the payload only when it was non-empty, so only then does the
        cookie write reach it. */
    function HeadersAfter(h: map<string, string>): (r: map<string, string>)
      // the cookie header is added only to a non-empty dict
      ensures r.Keys == if h != map[] && HasCookies() then h.Keys + {"Cookie"} else h.Keys
      ensures h != map[] && HasCookies() ==> r["Cookie"] == CookieString(cookies.value)
      // every other header keeps its value
      ensures forall k :: k in h && k != "Cookie" ==> r[k] == h[k]
      ensures !HasCookies() ==> r == h
    {
      if h != map[] && HasCookies() then CustomHeaders(h) else h
    }

    /** The selector wait, first of the browser actions. */
    function SelectorWaitAction(): map<string, Json>
      requires Present(waitForSelector)
    {
      var action := map[
        "type" := JStr("wait_for_selector"),
        "cssSelector" := JStr(waitForSelector.value),
        "timeout" := JInt(30000)];
      if Truthy(Get(extra, "waitForSelectorIgnoreErrors", JNull))
      then action["ignoreErrors" := JBool(true)]
      else action
    }

    /** The post-render wait, in seconds: values above 100 are taken for
        milliseconds. */
    function RenderingWaitSeconds(): Json
      requires HasRenderingWait()
    {
      var w := renderingWait.value;
      if w > 100 then JReal(w as real / 1000.0) else JInt(w)
    }

    /** The optional browser actions: before and after the scenario. */
    function LeadingActions(): seq<Json> {
      if Present(waitForSelector) then [JObj(SelectorWaitAction())] else []
    }

    function TrailingActions(): seq<Json> {
      ScriptAction() + ScrollAction() + WaitAction()
    }

    function ScriptAction(): seq<Json> {
      if Present(js) then [JObj(map["type" := JStr("execute_js"), "code" := JStr(js.value)])] else []
    }

    function ScrollAction(): seq<Json> {
      if autoScroll then [JObj(map["type" := JStr("scroll")])] else []
    }

    function WaitAction(): seq<Json> {
      if HasRenderingWait() then [JObj(map["type" := JStr("wait"), "wait" := RenderingWaitSeconds()])] else []
    }

    /** The `browserActions` list, in its fixed order. */
    function BrowserActions(): (r: Result<seq<Json>, Exception>)
      ensures r.Success? <==> ConvertAll(Scenario()).Success?
    {
      var scenario :- ConvertAll(Scenario());
      Success(LeadingActions() + scenario + TrailingActions())
    }

    /** The keys every payload starts with. */
    function Command(): map<string, Json> {
      map["cmd" := JStr("request." + Lower(httpMethod)), "url" := JStr(url), "premiumProxy" := JBool(true)]
    }

    /** The session: the argument when truthy, else the config's own. */
    function WithSession(p: map<string, Json>, sessionId: Option<string>): map<string, Json> {
      if Present(sessionId) then p["session" := JStr(sessionId.value)]
      else if Present(session) then p["session" := JStr(session.value)]
      else p
    }

    function WithCountry(p: map<string, Json>): map<string, Json> {
      if country != "" then p["proxyCountry" := JStr(MapCountryCode(country))] else p
    }

    function WithHeaders(p: map<string, Json>, h: map<string, string>): map<string, Json> {
      if CustomHeaders(h) != map[] then p["customHeaders" := JObj(StrMap(CustomHeaders(h)))] else p
    }

    /** `data` wins over `body`. */
    function WithPostData(p: map<string, Json>): map<string, Json> {
      if HasData() then p["postData" := JObj(data.value)]
      else if Present(body) then p["postData" := JStr(body.value)]
      else p
    }

    function WithActions(p: map<string, Json>, actions: seq<Json>): map<string, Json> {
      if actions != [] then p["browserActions" := JArr(actions)] else p
    }

    function WithCaptcha(p: map<string, Json>): map<string, Json> {
      if autoSolveCaptcha then p["automaticallySolveCaptchas" := JBool(true)] else p
    }

    /** The payload for a given `headers` dict: each step writes its own
        key, and `extra` is merged last; only the browser actions can
        fail. */
    function PayloadWith(h: map<string, string>, sessionId: Option<string>): (r: Result<map<string, Json>, Exception>)
      ensures r.Success? <==> BrowserActions().Success?
    {
      var actions :- BrowserActions();
      var p := WithPostData(WithHeaders(WithCountry(WithSession(Command(), sessionId)), h));
      Success(WithCaptcha(WithActions(p, actions)) + extra)
    }

    /** The first keys of the payload: the command, the session and the
        proxy country. */
    method BasePayload(sessionId: Option<string>) returns (r: map<string, Json>)
      ensures r == WithCountry(WithSession(Command(), sessionId))
    {
      r := map[
        "cmd" := JStr("request." + Lower(httpMethod)),
        "url" := JStr(url),
        "premiumProxy" := JBool(true)];
      if Present(sessionId) {
        r := r["session" := JStr(sessionId.value)];
      } else if Present(session) {
        r := r["session" := JStr(session.value)];
      }
      if country != "" {
        r := r["proxyCountry" := JStr(MapCountryCode(country))];
      }
    }

    /** The request-body step of the translation: `data` is written after
        `body` and so replaces it. */
    method AttachPostData(payload: map<string, Json>) returns (r: map<string, Json>)
      ensures r == WithPostData(payload)
    {
      r := payload;
      if Present(body) {
        r := r["postData" := JStr(body.value)];
      }
      if HasData() {
        r := r["postData" := JObj(data.value)];
        assert Present(body) ==> r == payload["postData" := JObj(data.value)];
      }
    }

    /** The headers step of the translation: the custom headers are the
        config's own dict when it is non-empty (so the cookie write lands in
        `self.headers` too), else a fresh dict holding only the cookie. */
    method AttachHeaders(payload: map<string, Json>) returns (r: map<string, Json>)
      modifies headers
      ensures headers.entries == HeadersAfter(old(headers.entries))
      ensures r == WithHeaders(payload, old(headers.entries))
    {
      // `shared` records that the payload entry and `self.headers` are one dict
      var customHeaders: Option<map<string, string>> := None;
      var shared := false;
      if headers.entries != map[] {
        customHeaders, shared := Some(headers.entries), true;
      }
      if HasCookies() {
        if customHeaders.None? {
          customHeaders := Some(map[]);
        }
        customHeaders := Some(customHeaders.value["Cookie" := CookieString(cookies.value)]);
        assert "Cookie" in customHeaders.value;
        if shared {
          headers.entries := customHeaders.value;
        }
      }
      assert headers.entries == HeadersAfter(old(headers.entries));
      assert customHeaders.Some? <==> CustomHeaders(old(headers.entries)) != map[];
      assert customHeaders.Some? ==> customHeaders.value == CustomHeaders(old(headers.entries));
      r := payload;
      if customHeaders.Some? {
        r := r["customHeaders" := JObj(StrMap(customHeaders.value))];
      }
    }

    /** The action-list step of the translation: the selector wait, the
        converted scenario, then the script, scroll and wait actions. */
    method BrowserActionList() returns (r: Result<seq<Json>, Exception>)
      ensures r == BrowserActions()
    {
      var browserActions: seq<Json> := [];
      if Present(waitForSelector) {
        browserActions := browserActions + [JObj(SelectorWaitAction())];
      }
      var scenario := ConvertScenario(Scenario());
      if scenario.Failure? {
        return scenario;
      }
      browserActions := browserActions + scenario.value;
      ghost var done := browserActions;
      assert done == LeadingActions() + ConvertAll(Scenario()).value;
      if Present(js) {
        browserActions := browserActions + [JObj(map["type" := JStr("execute_js"), "code" := JStr(js.value)])];
      }
      assert browserActions == done + ScriptAction();
      if autoScroll {
        browserActions := browserActions + [JObj(map["type" := JStr("scroll")])];
      }
      assert browserActions == done + ScriptAction() + ScrollAction();
      if HasRenderingWait() {
        browserActions := browserActions + [JObj(map["type" := JStr("wait"), "wait" := RenderingWaitSeconds()])];
      }
      assert browserActions == done + ScriptAction() + ScrollAction() + WaitAction();
      AppendThree(done, ScriptAction(), ScrollAction(), WaitAction());
      return Success(browserActions);
    }

    /** `to_scrappey_payload`: builds the payload key by key and the action
        list entry by entry. When the config has headers, the payload's
        `customHeaders` IS `self.headers`, so writing the cookie header
        into it also changes the config; that write happens before the
        scenario is converted, so it survives a failed conversion. */
    method ToScrappeyPayload(sessionId: Option<string>) returns (r: Result<map<string, Json>, Exception>)
      modifies headers
      ensures headers.entries == HeadersAfter(old(headers.entries))
      ensures r == PayloadWith(old(headers.entries), sessionId)
    {
      ghost var h := headers.entries;
      var payload := BasePayload(sessionId);
      payload := AttachHeaders(payload);
      payload := AttachPostData(payload);
      ghost var written := payload;

      var actions := BrowserActionList();
      if actions.Failure? {
        return Failure(actions.error);
      }
      var browserActions := actions.value;
      if browserActions != [] {
        payload := payload["browserActions" := JArr(browserActions)];
      }
      assert payload == WithActions(written, BrowserActions().value);
      if autoSolveCaptcha {
        payload := payload["automaticallySolveCaptchas" := JBool(true)];
      }
      assert written == WithPostData(WithHeaders(WithCountry(WithSession(Command(), sessionId)), h));
      if extra != map[] {
        payload := payload + extra;
      } else {
        MergeEmpty(payload, extra);
      }
      return Success(payload);
    }
  }
}
