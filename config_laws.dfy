/** What the request translator promises about the payload it builds. */
module ConfigLaws {

  import opened Wrappers
  import opened Text
  import opened Json
  import opened Exceptions
  import opened Config

  /** `p` and `q` agree on key `k`: both lack it or both map it to the
      same value. */
  predicate SameAt(p: map<string, Json>, q: map<string, Json>, k: string) {
    (k in p <==> k in q) && (k in p ==> p[k] == q[k])
  }

  // The payload as it stands after each step of the translation.

  function UpToCountry(c: ScrapeConfig, sessionId: Option<string>): map<string, Json> {
    c.WithCountry(c.WithSession(c.Command(), sessionId))
  }

  function UpToPostData(c: ScrapeConfig, h: map<string, string>, sessionId: Option<string>): map<string, Json> {
    c.WithPostData(c.WithHeaders(UpToCountry(c, sessionId), h))
  }

  /** The payload before `extra` is merged in. */
  function PreExtra(c: ScrapeConfig, h: map<string, string>, sessionId: Option<string>): (q: map<string, Json>)
    requires c.PayloadWith(h, sessionId).Success?
    ensures c.PayloadWith(h, sessionId).value == q + c.extra
  {
    c.WithCaptcha(c.WithActions(UpToPostData(c, h, sessionId), c.BrowserActions().value))
  }

  // Each step of the translation writes its own key and leaves every
  // other key as it was.

  lemma SessionKeeps(c: ScrapeConfig, p: map<string, Json>, sessionId: Option<string>, k: string)
    requires k != "session"
    ensures SameAt(c.WithSession(p, sessionId), p, k)
  {
  }

  lemma CountryKeeps(c: ScrapeConfig, p: map<string, Json>, k: string)
    requires k != "proxyCountry"
    ensures SameAt(c.WithCountry(p), p, k)
  {
  }

  lemma HeadersKeeps(c: ScrapeConfig, p: map<string, Json>, h: map<string, string>, k: string)
    requires k != "customHeaders"
    ensures SameAt(c.WithHeaders(p, h), p, k)
  {
  }

  lemma PostDataKeeps(c: ScrapeConfig, p: map<string, Json>, k: string)
    requires k != "postData"
    ensures SameAt(c.WithPostData(p), p, k)
  {
  }

  lemma ActionsKeeps(c: ScrapeConfig, p: map<string, Json>, a: seq<Json>, k: string)
    requires k != "browserActions"
    ensures SameAt(c.WithActions(p, a), p, k)
  {
  }

  lemma CaptchaKeeps(c: ScrapeConfig, p: map<string, Json>, k: string)
    requires k != "automaticallySolveCaptchas"
    ensures SameAt(c.WithCaptcha(p), p, k)
  {
  }

  /** Merging `e` into `q` keeps every key of `q`, and the keys `e` lacks
      keep their values. */
  lemma MergeKeeps(q: map<string, Json>, e: map<string, Json>, k: string)
    ensures k in q ==> k in q + e
    ensures k !in e ==> SameAt(q + e, q, k)
  {
  }

  /** A key that `extra` lacks is sent as the translation computed it. */
  lemma Delivered(c: ScrapeConfig, h: map<string, string>, sessionId: Option<string>, k: string)
    requires c.PayloadWith(h, sessionId).Success?
    ensures var p := c.PayloadWith(h, sessionId).value;
      && (k in PreExtra(c, h, sessionId) ==> k in p)
      && (k !in c.extra ==> SameAt(p, PreExtra(c, h, sessionId), k))
  {
    MergeKeeps(PreExtra(c, h, sessionId), c.extra, k);
  }

  /** A key none of the first steps writes is not in the payload they
      build. */
  lemma NotWrittenEarly(c: ScrapeConfig, h: map<string, string>, sessionId: Option<string>, k: string)
    requires k != "cmd" && k != "url" && k != "premiumProxy" && k != "session"
    ensures k != "proxyCountry" ==> k !in UpToCountry(c, sessionId)
    ensures k != "proxyCountry" && k != "customHeaders" && k != "postData" ==> k !in UpToPostData(c, h, sessionId)
  {
    var p1 := c.WithSession(c.Command(), sessionId);
    SessionKeeps(c, c.Command(), sessionId, k);
    if k != "proxyCountry" {
      CountryKeeps(c, p1, k);
      if k != "customHeaders" && k != "postData" {
        HeadersKeeps(c, UpToCountry(c, sessionId), h, k);
        PostDataKeeps(c, c.WithHeaders(UpToCountry(c, sessionId), h), k);
      }
    }
  }

  /** A key the last two steps do not write is as the post data step left it. */
  lemma FromPostData(c: ScrapeConfig, h: map<string, string>, sessionId: Option<string>, k: string)
    requires c.PayloadWith(h, sessionId).Success?
    requires k != "browserActions" && k != "automaticallySolveCaptchas"
    ensures SameAt(PreExtra(c, h, sessionId), UpToPostData(c, h, sessionId), k)
  {
    var p4 := UpToPostData(c, h, sessionId);
    ActionsKeeps(c, p4, c.BrowserActions().value, k);
    CaptchaKeeps(c, c.WithActions(p4, c.BrowserActions().value), k);
  }

  /** A key no step after the country writes is as the country step left it. */
  lemma FromCountry(c: ScrapeConfig, h: map<string, string>, sessionId: Option<string>, k: string)
    requires c.PayloadWith(h, sessionId).Success?
    requires k != "customHeaders" && k != "postData"
    requires k != "browserActions" && k != "automaticallySolveCaptchas"
    ensures SameAt(PreExtra(c, h, sessionId), UpToCountry(c, sessionId), k)
  {
    FromPostData(c, h, sessionId, k);
    var p2 := UpToCountry(c, sessionId);
    HeadersKeeps(c, p2, h, k);
    PostDataKeeps(c, c.WithHeaders(p2, h), k);
  }

  /** `extra` is merged last, so each of its keys is sent with its own
      value, whatever the translation computed for it. */
  lemma ExtraWins(c: ScrapeConfig, h: map<string, string>, sessionId: Option<string>)
    requires c.PayloadWith(h, sessionId).Success?
    ensures var p := c.PayloadWith(h, sessionId).value;
      && c.extra.Keys <= p.Keys
      && forall k :: k in c.extra ==> p[k] == c.extra[k]
  {
  }

  /** The command is `request.` and the lower-cased method; the url and the
      premium proxy flag are always sent. `extra` may override any of them. */
  lemma PayloadCommand(c: ScrapeConfig, h: map<string, string>, sessionId: Option<string>)
    requires c.PayloadWith(h, sessionId).Success?
    ensures var p := c.PayloadWith(h, sessionId).value;
      && "cmd" in p && "url" in p && "premiumProxy" in p
      && ("cmd" !in c.extra ==> p["cmd"] == JStr("request." + Lower(c.httpMethod)))
      && ("url" !in c.extra ==> p["url"] == JStr(c.url))
      && ("premiumProxy" !in c.extra ==> p["premiumProxy"] == JBool(true))
  {
    var p1 := c.WithSession(c.Command(), sessionId);
    var e := c.Command();
    FromCountry(c, h, sessionId, "cmd");
    CountryKeeps(c, p1, "cmd");
    SessionKeeps(c, e, sessionId, "cmd");
    FromCountry(c, h, sessionId, "url");
    CountryKeeps(c, p1, "url");
    SessionKeeps(c, e, sessionId, "url");
    FromCountry(c, h, sessionId, "premiumProxy");
    CountryKeeps(c, p1, "premiumProxy");
    SessionKeeps(c, e, sessionId, "premiumProxy");
    Delivered(c, h, sessionId, "cmd");
    Delivered(c, h, sessionId, "url");
    Delivered(c, h, sessionId, "premiumProxy");
  }

  /** A truthy `session_id` argument wins over the config's session; with
      neither, no session is sent. */
  lemma SessionPrecedence(c: ScrapeConfig, h: map<string, string>, sessionId: Option<string>)
    requires c.PayloadWith(h, sessionId).Success? && "session" !in c.extra
    ensures var p := c.PayloadWith(h, sessionId).value;
      && ("session" in p <==> Present(sessionId) || Present(c.session))
      && (Present(sessionId) ==> p["session"] == JStr(sessionId.value))
      && (!Present(sessionId) && Present(c.session) ==> p["session"] == JStr(c.session.value))
  {
    FromCountry(c, h, sessionId, "session");
    CountryKeeps(c, c.WithSession(c.Command(), sessionId), "session");
    Delivered(c, h, sessionId, "session");
  }

  /** `proxyCountry` is sent exactly when a country is given, mapped
      through the country table. */
  lemma ProxyCountry(c: ScrapeConfig, h: map<string, string>, sessionId: Option<string>)
    requires c.PayloadWith(h, sessionId).Success? && "proxyCountry" !in c.extra
    ensures var p := c.PayloadWith(h, sessionId).value;
      && ("proxyCountry" in p <==> c.country != "")
      && (c.country != "" ==> p["proxyCountry"] == JStr(MapCountryCode(c.country)))
  {
    var k := "proxyCountry";
    SessionKeeps(c, c.Command(), sessionId, k);
    FromCountry(c, h, sessionId, k);
    Delivered(c, h, sessionId, k);
  }

  /** The serialised cookies replace any `Cookie` header the caller
      supplied; every other supplied header is sent as given. */
  lemma CookieHeaderReplaces(c: ScrapeConfig, h: map<string, string>)
    ensures c.CustomHeaders(h).Keys == if c.HasCookies() then h.Keys + {"Cookie"} else h.Keys
    ensures c.HasCookies() ==> c.CustomHeaders(h)["Cookie"] == CookieString(c.cookies.value)
    ensures forall k :: k in h && (k != "Cookie" || !c.HasCookies()) ==> c.CustomHeaders(h)[k] == h[k]
  {
  }

  /** `customHeaders` is sent exactly when there are headers or cookies, and
      holds the custom headers. */
  lemma CustomHeadersSent(c: ScrapeConfig, h: map<string, string>, sessionId: Option<string>)
    requires c.PayloadWith(h, sessionId).Success? && "customHeaders" !in c.extra
    ensures var p := c.PayloadWith(h, sessionId).value;
      && ("customHeaders" in p <==> h != map[] || c.HasCookies())
      && ("customHeaders" in p ==> p["customHeaders"] == JObj(StrMap(c.CustomHeaders(h))))
  {
    NotWrittenEarly(c, h, sessionId, "customHeaders");
    FromPostData(c, h, sessionId, "customHeaders");
    PostDataKeeps(c, c.WithHeaders(UpToCountry(c, sessionId), h), "customHeaders");
    Delivered(c, h, sessionId, "customHeaders");
    if c.HasCookies() {
      assert "Cookie" in c.CustomHeaders(h);
    }
  }

  /** The cookie string lists the pairs as `k=v` in order, separated by
      `"; "`: each further cookie appends one more pair. */
  lemma CookieStringAppend(cookies: seq<(string, string)>, k: string, v: string)
    requires cookies != []
    ensures CookieString(cookies + [(k, v)]) == CookieString(cookies) + "; " + k + "=" + v
  {
    var pairs := seq(|cookies|, i requires 0 <= i < |cookies| => cookies[i].0 + "=" + cookies[i].1);
    var more := cookies + [(k, v)];
    var pairsMore := seq(|more|, i requires 0 <= i < |more| => more[i].0 + "=" + more[i].1);
    assert pairsMore == pairs + [k + "=" + v];
    JoinSnoc(pairs, k + "=" + v, "; ");
  }

  /** `postData` is `data` when it is non-empty, else `body` when it is
      non-empty; otherwise nothing is posted. */
  lemma PostDataPrecedence(c: ScrapeConfig, h: map<string, string>, sessionId: Option<string>)
    requires c.PayloadWith(h, sessionId).Success? && "postData" !in c.extra
    ensures var p := c.PayloadWith(h, sessionId).value;
      && ("postData" in p <==> c.HasData() || Present(c.body))
      && (c.HasData() ==> p["postData"] == JObj(c.data.value))
      && (!c.HasData() && Present(c.body) ==> p["postData"] == JStr(c.body.value))
  {
    NotWrittenEarly(c, h, sessionId, "postData");
    HeadersKeeps(c, UpToCountry(c, sessionId), h, "postData");
    FromPostData(c, h, sessionId, "postData");
    Delivered(c, h, sessionId, "postData");
  }

  /** The number of optional browser actions the config asks for. */
  function OptionalActionCount(c: ScrapeConfig): nat {
    (if Present(c.waitForSelector) then 1 else 0) + (if Present(c.js) then 1 else 0)
    + (if c.autoScroll then 1 else 0) + (if c.HasRenderingWait() then 1 else 0)
  }

  /** The action list holds one entry per optional field that is set plus
      one per scenario entry. */
  lemma BrowserActionsLength(c: ScrapeConfig)
    requires c.BrowserActions().Success?
    ensures |c.BrowserActions().value| == OptionalActionCount(c) + |c.Scenario()|
  {
    var converted := ConvertAll(c.Scenario()).value;
    assert |converted| == |c.Scenario()|;
    assert |c.TrailingActions()| == |c.ScriptAction()| + |c.ScrollAction()| + |c.WaitAction()|;
  }

  /** The action list is the leading actions, the converted scenario and
      the trailing actions, in that order. */
  lemma ActionsSplit(c: ScrapeConfig)
    requires c.BrowserActions().Success?
    ensures c.BrowserActions().value == c.LeadingActions() + ConvertAll(c.Scenario()).value + c.TrailingActions()
  {
  }

  /** A successful conversion holds each action's own conversion, in order. */
  lemma ConvertAllEntries(actions: seq<map<string, Json>>)
    requires ConvertAll(actions).Success?
    ensures var v := ConvertAll(actions).value;
      && |v| == |actions|
      && forall i :: 0 <= i < |actions| ==> v[i] == JObj(ConvertJsScenarioAction(actions[i]).value)
  {
    var rs := Conversions(actions);
    assert forall i :: 0 <= i < |actions| ==> rs[i] == ConvertJsScenarioAction(actions[i]);
  }

  /** The later parts of a concatenation keep their entries, shifted by the
      lengths of the parts before them. */
  lemma ConcatEntries<T>(x: seq<T>, y: seq<T>, z: seq<T>)
    ensures |x + y + z| == |x| + |y| + |z|
    ensures forall i :: 0 <= i < |y| ==> (x + y + z)[|x| + i] == y[i]
    ensures forall i :: 0 <= i < |z| ==> (x + y + z)[|x| + |y| + i] == z[i]
  {
  }

  /** A successful conversion holds one entry per action. */
  lemma ConvertAllLength(actions: seq<map<string, Json>>)
    requires ConvertAll(actions).Success?
    ensures |ConvertAll(actions).value| == |actions|
  {
  }

  /** The converted scenario follows the leading actions, in order. */
  lemma ScenarioPlaced(c: ScrapeConfig)
    requires c.BrowserActions().Success?
    ensures var a := c.BrowserActions().value;
      var converted := ConvertAll(c.Scenario()).value;
      var lead := |c.LeadingActions()|;
      && lead + |converted| <= |a|
      && forall i :: 0 <= i < |converted| ==> a[lead + i] == converted[i]
  {
    ActionsSplit(c);
    ConcatEntries(c.LeadingActions(), ConvertAll(c.Scenario()).value, c.TrailingActions());
  }

  /** The selector wait comes first, then the converted scenario in order. */
  lemma BrowserActionsOrder(c: ScrapeConfig)
    requires c.BrowserActions().Success?
    ensures var a := c.BrowserActions().value;
      var lead := |c.LeadingActions()|;
      && lead + |c.Scenario()| <= |a|
      && (Present(c.waitForSelector) ==> a[0] == JObj(c.SelectorWaitAction()))
      && (forall i :: 0 <= i < |c.Scenario()| ==>
            a[lead + i] == JObj(ConvertJsScenarioAction(c.Scenario()[i]).value))
  {
    ScenarioPlaced(c);
    ConvertAllEntries(c.Scenario());
    if Present(c.waitForSelector) {
      ActionsSplit(c);
      assert c.LeadingActions() == [JObj(c.SelectorWaitAction())];
    }
  }

  /** The wait action comes last; without it, the scroll action does. */
  lemma BrowserActionsTail(c: ScrapeConfig)
    requires c.BrowserActions().Success?
    ensures var a := c.BrowserActions().value;
      && (c.HasRenderingWait() ==>
            a != [] && a[|a| - 1] == JObj(map["type" := JStr("wait"), "wait" := c.RenderingWaitSeconds()]))
      && (c.autoScroll && !c.HasRenderingWait() ==> a != [] && a[|a| - 1] == JObj(map["type" := JStr("scroll")]))
  {
    var a := c.BrowserActions().value;
    var trail := c.TrailingActions();
    assert a == c.LeadingActions() + ConvertAll(c.Scenario()).value + trail;
    if c.HasRenderingWait() || c.autoScroll {
      assert a[|a| - 1] == trail[|trail| - 1];
    }
  }

  /** After the scenario come the script, the scroll and the wait, each
      only when the config asks for it, in that order and nothing after. */
  lemma BrowserActionsTrailing(c: ScrapeConfig)
    requires c.BrowserActions().Success?
    ensures var a := c.BrowserActions().value;
      var n := |c.LeadingActions()| + |c.Scenario()|;
      var js := if Present(c.js) then 1 else 0;
      var scroll := if c.autoScroll then 1 else 0;
      && n + js + scroll + (if c.HasRenderingWait() then 1 else 0) == |a|
      && (Present(c.js) ==> a[n] == JObj(map["type" := JStr("execute_js"), "code" := JStr(c.js.value)]))
      && (c.autoScroll ==> a[n + js] == JObj(map["type" := JStr("scroll")]))
      && (c.HasRenderingWait() ==>
            a[n + js + scroll] == JObj(map["type" := JStr("wait"), "wait" := c.RenderingWaitSeconds()]))
  {
    ActionsSplit(c);
    ConvertAllLength(c.Scenario());
    ConcatEntries(c.LeadingActions(), ConvertAll(c.Scenario()).value, c.TrailingActions());
    ConcatEntries(c.ScriptAction(), c.ScrollAction(), c.WaitAction());
  }

  /** `browserActions` is sent exactly when the list is non-empty. */
  lemma BrowserActionsSent(c: ScrapeConfig, h: map<string, string>, sessionId: Option<string>)
    requires c.PayloadWith(h, sessionId).Success? && "browserActions" !in c.extra
    ensures var p := c.PayloadWith(h, sessionId).value;
      && ("browserActions" in p <==> c.BrowserActions().value != [])
      && ("browserActions" in p ==> p["browserActions"] == JArr(c.BrowserActions().value))
  {
    NotWrittenEarly(c, h, sessionId, "browserActions");
    CaptchaKeeps(c, c.WithActions(UpToPostData(c, h, sessionId), c.BrowserActions().value), "browserActions");
    Delivered(c, h, sessionId, "browserActions");
  }

  /** A selector wait, two scenario actions and auto-scroll give exactly
      four actions in that order. */
  lemma FourActionExample(c: ScrapeConfig)
    requires Present(c.waitForSelector) && |c.Scenario()| == 2 && c.autoScroll
    requires !Present(c.js) && !c.HasRenderingWait()
    requires c.BrowserActions().Success?
    ensures var a := c.BrowserActions().value;
      && |a| == 4
      && a[0] == JObj(c.SelectorWaitAction())
      && a[1] == JObj(ConvertJsScenarioAction(c.Scenario()[0]).value)
      && a[2] == JObj(ConvertJsScenarioAction(c.Scenario()[1]).value)
      && a[3] == JObj(map["type" := JStr("scroll")])
  {
    BrowserActionsLength(c);
    BrowserActionsOrder(c);
    BrowserActionsTail(c);
  }

  /** The selector wait always waits 30 seconds, and ignores errors only
      when `extra` asks for it. */
  lemma SelectorWaitShape(c: ScrapeConfig)
    requires Present(c.waitForSelector)
    ensures var w := c.SelectorWaitAction();
      && HasType(w, "wait_for_selector")
      && w["cssSelector"] == JStr(c.waitForSelector.value)
      && w["timeout"] == JInt(30000)
      && ("ignoreErrors" in w <==> Truthy(Get(c.extra, "waitForSelectorIgnoreErrors", JNull)))
  {
  }

  /** A rendering wait above 100 is taken for milliseconds and sent in
      seconds; one of 100 or less is sent as given; 0 sends no wait. */
  lemma RenderingWaitUnits(c: ScrapeConfig)
    ensures c.renderingWait == Some(0) || c.renderingWait.None? ==> c.WaitAction() == []
    ensures c.HasRenderingWait() && c.renderingWait.value > 100 ==>
      c.RenderingWaitSeconds() == JReal(c.renderingWait.value as real / 1000.0)
    ensures c.HasRenderingWait() && c.renderingWait.value <= 100 ==>
      c.RenderingWaitSeconds() == JInt(c.renderingWait.value)
  {
  }

  /** The captcha flag is sent exactly when captcha solving is on. */
  lemma CaptchaFlag(c: ScrapeConfig, h: map<string, string>, sessionId: Option<string>)
    requires c.PayloadWith(h, sessionId).Success? && "automaticallySolveCaptchas" !in c.extra
    ensures var p := c.PayloadWith(h, sessionId).value;
      && ("automaticallySolveCaptchas" in p <==> c.autoSolveCaptcha)
      && (c.autoSolveCaptcha ==> p["automaticallySolveCaptchas"] == JBool(true))
  {
    NotWrittenEarly(c, h, sessionId, "automaticallySolveCaptchas");
    ActionsKeeps(c, UpToPostData(c, h, sessionId), c.BrowserActions().value, "automaticallySolveCaptchas");
    Delivered(c, h, sessionId, "automaticallySolveCaptchas");
  }

  /** The translation raises exactly when some scenario entry cannot be
      converted, and then with the error of the first such entry. */
  lemma TranslationFails(c: ScrapeConfig, h: map<string, string>, sessionId: Option<string>)
    ensures c.PayloadWith(h, sessionId).Failure? <==>
      exists i :: 0 <= i < |c.Scenario()| && ConvertJsScenarioAction(c.Scenario()[i]).Failure?
    ensures forall i :: (0 <= i < |c.Scenario()| && ConvertJsScenarioAction(c.Scenario()[i]).Failure?
      && (forall j :: 0 <= j < i ==> ConvertJsScenarioAction(c.Scenario()[j]).Success?)) ==>
        c.PayloadWith(h, sessionId) == Failure(ConvertJsScenarioAction(c.Scenario()[i]).error)
  {
    var rs := Conversions(c.Scenario());
    forall i | 0 <= i < |c.Scenario()| && ConvertJsScenarioAction(c.Scenario()[i]).Failure?
      && (forall j :: 0 <= j < i ==> ConvertJsScenarioAction(c.Scenario()[j]).Success?)
      ensures c.PayloadWith(h, sessionId) == Failure(ConvertJsScenarioAction(c.Scenario()[i]).error)
    {
      assert Collect(rs[..i]).Success?;
      CollectFailsAt(rs, i);
    }
  }

  /** After one translation the headers are a fixed point: translating
      again sends the same custom headers and the same payload, and leaves
      the headers as they are. */
  lemma TranslationIdempotent(c: ScrapeConfig, h: map<string, string>, sessionId: Option<string>)
    ensures c.HeadersAfter(c.HeadersAfter(h)) == c.HeadersAfter(h)
    ensures c.CustomHeaders(c.HeadersAfter(h)) == c.CustomHeaders(h)
    ensures c.PayloadWith(c.HeadersAfter(h), sessionId) == c.PayloadWith(h, sessionId)
  {
    if h != map[] && c.HasCookies() {
      var cs := CookieString(c.cookies.value);
      assert h["Cookie" := cs]["Cookie" := cs] == h["Cookie" := cs];
    }
  }

  /** A failed conversion list fails with the error of one of its entries. */
  lemma {:induction false} CollectErrorFrom(rs: seq<Result<map<string, Json>, Exception>>)
    ensures Collect(rs).Failure? ==>
      exists i :: 0 <= i < |rs| && rs[i].Failure? && Collect(rs).error == rs[i].error
    decreases |rs|
  {
    if rs != [] {
      var front := rs[..|rs| - 1];
      CollectErrorFrom(front);
      if Collect(front).Failure? {
        var i :| 0 <= i < |front| && front[i].Failure? && Collect(front).error == front[i].error;
        assert rs[i] == front[i];
      }
    }
  }

  /** A translation fails only with a Python error that is not a
      `ScrappeyError` (the `AttributeError` of a malformed scenario entry). */
  lemma TranslationErrorsAreForeign(c: ScrapeConfig, h: map<string, string>, sessionId: Option<string>)
    ensures c.PayloadWith(h, sessionId).Failure? <==> c.BrowserActions().Failure?
    ensures c.PayloadWith(h, sessionId).Failure? ==> c.PayloadWith(h, sessionId).error.kind == Foreign
  {
    CollectErrorFrom(Conversions(c.Scenario()));
  }

  /** The dict a translation wrote into is what another config built from
      the same dict sends: when the first config has cookies and the
      second has none, the second sends the first one's cookie header. */
  lemma CookieReachesSharingConfig(a: ScrapeConfig, b: ScrapeConfig, h: map<string, string>,
                                   sessionId: Option<string>)
    requires h != map[] && a.HasCookies() && !b.HasCookies()
    requires b.PayloadWith(a.HeadersAfter(h), sessionId).Success? && "customHeaders" !in b.extra
    ensures var p := b.PayloadWith(a.HeadersAfter(h), sessionId).value;
      && "customHeaders" in p
      && p["customHeaders"] == JObj(StrMap(h["Cookie" := CookieString(a.cookies.value)]))
  {
    var shared := a.HeadersAfter(h);
    assert shared == h["Cookie" := CookieString(a.cookies.value)];
    CustomHeadersSent(b, shared, sessionId);
  }

  /** A single cookie is serialised as `name=value`. */
  lemma OneCookie()
    ensures CookieString([("sid", "1")]) == "sid=1"
  {
    assert "sid" + "=" + "1" == "sid=1";
  }

  /** Two configs built from one headers dict: translating the first, which
      has a cookie, writes its cookie header into the shared dict, so the
      caller's dict holds it and the second config sends it too. */
  method SharedHeadersExample() returns (h: HeaderDict, second: Result<map<string, Json>, Exception>)
    ensures "Cookie" in h.entries && h.entries["Cookie"] == "sid=1"
    ensures second.Success? && "customHeaders" in second.value
    ensures second.value["customHeaders"] == JObj(StrMap(h.entries))
  {
    h := new HeaderDict(map["User-Agent" := "x"]);
    var a := new ScrapeConfig("a", h, cookies := Some([("sid", "1")]));
    var b := new ScrapeConfig("b", h);
    ghost var h0 := h.entries;
    assert "User-Agent" in h0;
    var first := a.ToScrappeyPayload(None);
    OneCookie();
    second := b.ToScrappeyPayload(None);
    assert b.Scenario() == [] && ConvertAll([]) == Success([]);
    CookieReachesSharingConfig(a, b, h0, None);
  }

  /** A config with every default but its url (method GET, country US,
      captcha solving on, no headers, cookies, actions or extra) sends
      exactly these five keys. */
  lemma DefaultsPayload(c: ScrapeConfig)
    requires c.country == "US" && c.httpMethod == "GET" && c.autoSolveCaptcha && c.extra == map[]
    requires c.session.None? && c.body.None? && c.data.None? && c.cookies.None?
    requires c.waitForSelector.None? && c.js.None? && c.jsScenario.None? && !c.autoScroll
    requires c.renderingWait.None?
    ensures c.PayloadWith(map[], None) == Success(map[
      "cmd" := JStr("request.get"), "url" := JStr(c.url), "premiumProxy" := JBool(true),
      "proxyCountry" := JStr("UnitedStates"), "automaticallySolveCaptchas" := JBool(true)])
  {
    var p := c.WithCountry(c.WithSession(c.Command(), None));
    DefaultsFirstStages(c);
    assert c.CustomHeaders(map[]) == map[];
    assert c.WithPostData(c.WithHeaders(p, map[])) == p;
    DefaultsNoActions(c);
    assert c.WithCaptcha(p) + c.extra == c.WithCaptcha(p);
  }

  /** The first stages for method GET, country US and no session. */
  lemma DefaultsFirstStages(c: ScrapeConfig)
    requires c.country == "US" && c.httpMethod == "GET" && c.session.None?
    ensures c.WithCountry(c.WithSession(c.Command(), None)) == map[
      "cmd" := JStr("request.get"), "url" := JStr(c.url), "premiumProxy" := JBool(true),
      "proxyCountry" := JStr("UnitedStates")]
  {
    assert Lower("GET") == "get";
    assert "request." + "get" == "request.get";
    assert Upper("US") == "US";
  }

  /** Without a selector, scenario, script, scroll or rendering wait there
      are no browser actions. */
  lemma DefaultsNoActions(c: ScrapeConfig)
    requires c.waitForSelector.None? && c.js.None? && c.jsScenario.None? && !c.autoScroll
    requires c.renderingWait.None?
    ensures c.BrowserActions() == Success([])
  {
    assert c.LeadingActions() == [] && c.Scenario() == [];
    assert c.ScriptAction() == [] && c.ScrollAction() == [] && c.WaitAction() == [];
    assert c.TrailingActions() == [];
    assert Conversions([]) == [] && ConvertAll([]) == Success([]);
    var empty: seq<Json> := [];
    assert empty + empty + empty == [];
  }

  /** `ScrapeConfig(url)` with the dataclass's defaults and a new empty
      headers dict translates to the payload of `DefaultsPayload`. */
  method DefaultConfigPayload(url: string) returns (r: Result<map<string, Json>, Exception>)
    ensures r == Success(map[
      "cmd" := JStr("request.get"), "url" := JStr(url), "premiumProxy" := JBool(true),
      "proxyCountry" := JStr("UnitedStates"), "automaticallySolveCaptchas" := JBool(true)])
  {
    var h := new HeaderDict(map[]);
    var c := new ScrapeConfig(url, h);
    r := c.ToScrappeyPayload(None);
    DefaultsPayload(c);
  }
}
