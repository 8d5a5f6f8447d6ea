/**
  The extension's service worker (src/service_worker.js): it keeps the translator
  configuration read from storage, builds the Google or the signed Baidu request,
  classifies the response, and answers each `translate` message once, after at most
  five attempts a second apart.
*/
module ServiceWorker {
  import opened Wrappers
  import opened JsStrings
  import opened JsValues
  import opened Utils
  import opened ExtensionStorage
  import opened Baidu
  import opened Tabs
  import opened Messages

  const GoogleTranslatorApi := "https://translate.googleapis.com/translate_a/single?client=gtx&dt=t&"
  const BaiduTranslatorApi := "https://fanyi-api.baidu.com/api/trans/vip/translate"
  const ConfigErrorText := "百度翻译 API 配置错误，请检查 API 配置"
  const BalanceErrorText := "百度翻译 API 余额不足，请确认账户余额"
  const ErrorReplyPrefix := "发生错误，错误信息为"

  /** `globalThis.config` as `init` writes it. */
  datatype Config = Config(appId: JsValue, appKey: JsValue, translator: string)

  /** The configuration `init` derives from the stored values: Baidu exactly when both
      credentials are truthy. A stored `translator` is not read. */
  function ConfigFrom(storage: Storage): (c: Config)
    ensures c.appId == Read(storage, "appId") && c.appKey == Read(storage, "appKey")
    ensures c.translator == "baidu" <==> Truthy(c.appId) && Truthy(c.appKey)
    ensures c.translator == "google" <==> !(Truthy(c.appId) && Truthy(c.appKey))
  {
    var appId, appKey := Read(storage, "appId"), Read(storage, "appKey");
    Config(appId, appKey, if Truthy(appId) && Truthy(appKey) then "baidu" else "google")
  }

  /** `globalThis.config?.translator === "google"`; before `init` has finished the
      Baidu branch is taken. */
  predicate UsesGoogle(config: Option<Config>) {
    config.Some? && config.value.translator == "google"
  }

  /** `globalThis.config?.appId`. */
  function AppIdOf(config: Option<Config>): JsValue {
    if config.Some? then config.value.appId else Undefined
  }

  /** `globalThis.config?.appKey`. */
  function AppKeyOf(config: Option<Config>): JsValue {
    if config.Some? then config.value.appKey else Undefined
  }

  function GoogleParams(text: JsValue): seq<(string, JsValue)> {
    [("q", text), ("tl", Str("zh_CN")), ("sl", Str("auto")), ("client", Str("dict-chrome-ex"))]
  }

  /** The Google request: the base URL already ends in `&`, the query follows it. */
  function GoogleUrl(text: JsValue): string {
    GoogleTranslatorApi + StringifyQueryParameter(GoogleParams(text))
  }

  /** The Baidu request: the base URL, `?`, and the signed parameters. */
  function BaiduUrl(md5: string -> string, text: JsValue, locale: JsValue, appid: JsValue, appkey: JsValue, salt: string): string {
    BaiduTranslatorApi + "?" + StringifyQueryParameter(SignedParams(md5, text, locale, appid, appkey, salt))
  }

  /** The URL attempt `k` of `translate(text, locale)` fetches. */
  function RequestUrl(config: Option<Config>, text: JsValue, locale: JsValue, env: Environment, k: nat): string {
    if UsesGoogle(config) then GoogleUrl(text)
    else BaiduUrl(env.md5, text, locale, AppIdOf(config), AppKeyOf(config), RandomString(env.randoms(k), 5))
  }

  /** The keys of the Google request and the strings its values stand for. */
  lemma GooglePairs(text: JsValue)
    ensures StringPairs(GoogleParams(text)) ==
      [("q", ToString(text)), ("tl", "zh_CN"), ("sl", "auto"), ("client", "dict-chrome-ex")]
  {
    assert ToString(Str("zh_CN")) == "zh_CN";
  }

  /** The Google query carries `q`, `tl`, `sl` and `client`, in this order. */
  lemma GoogleQuery(text: JsValue)
    ensures ParseQuery(StringifyQueryParameter(GoogleParams(text))) ==
      Some([("q", ToString(text)), ("tl", "zh_CN"), ("sl", "auto"), ("client", "dict-chrome-ex")])
  {
    ParseStringify(GoogleParams(text));
    GooglePairs(text);
  }

  /** The Google URL is the base URL followed by a query that parses back to the four
      Google parameters. */
  lemma GoogleUrlQuery(text: JsValue)
    ensures var url := GoogleUrl(text);
      && url[..|GoogleTranslatorApi|] == GoogleTranslatorApi
      && ParseQuery(url[|GoogleTranslatorApi|..]) ==
        Some([("q", ToString(text)), ("tl", "zh_CN"), ("sl", "auto"), ("client", "dict-chrome-ex")])
  {
    var query := StringifyQueryParameter(GoogleParams(text));
    assert GoogleUrl(text)[|GoogleTranslatorApi|..] == query;
    GoogleQuery(text);
  }

  /** The Baidu URL is the Baidu API, `?`, and a query that parses back to the six signed
      pairs. */
  lemma BaiduUrlQuery(md5: string -> string, text: JsValue, locale: JsValue, appid: JsValue, appkey: JsValue, salt: string)
    ensures var url := BaiduUrl(md5, text, locale, appid, appkey, salt);
      && url[..|BaiduTranslatorApi| + 1] == BaiduTranslatorApi + "?"
      && ParseQuery(url[|BaiduTranslatorApi| + 1..]) == Some([
        ("q", ToString(text)), ("from", ToString(locale)), ("to", "zh"), ("appid", ToString(appid)),
        ("salt", salt), ("sign", md5(ToString(appid) + ToString(text) + salt + ToString(appkey)))])
  {
    SignedUrlQuery(BaiduTranslatorApi, md5, text, locale, appid, appkey, salt);
  }

  /** `items.map((item) => item[0]).filter((item) => typeof item === "string").join("")`:
      None (a TypeError) when an item is `null` or `undefined`. */
  function GoogleSegmentsText(items: seq<JsValue>): (r: Option<string>)
    ensures r.Some? <==> forall i :: 0 <= i < |items| ==> !Nullish(items[i])
  {
    if items == [] then Some("")
    else
      match (Member(items[0], "0"), GoogleSegmentsText(items[1..]))
      case (Some(Str(s)), Some(rest)) => Some(s + rest)
      case (Some(_), Some(rest)) => Some(rest)
      case (None, _) => None
      case (_, None) =>
        assert forall i :: 1 <= i < |items| ==> items[1..][i - 1] == items[i];
        None
  }

  /** A further segment adds its first element when that is a string, and nothing
      otherwise: the text is the in-order concatenation of the string first elements. */
  lemma {:induction false} GoogleSegmentsAppend(items: seq<JsValue>, item: JsValue)
    requires forall i :: 0 <= i < |items| ==> !Nullish(items[i])
    requires !Nullish(item)
    ensures var before, after := GoogleSegmentsText(items), GoogleSegmentsText(items + [item]);
      && before.Some? && after.Some?
      && after.value == before.value + (if Get(item, "0").Str? then Get(item, "0").s else "")
  {
    var all := items + [item];
    assert forall i :: 0 <= i < |all| ==> !Nullish(all[i]);
    if items == [] {
      assert all == [item];
      assert all[1..] == [];
      var first := Get(item, "0");
      if first.Str? {
        assert first.s + "" == first.s;
      }
    } else {
      assert all[0] == items[0];
      assert all[1..] == items[1..] + [item];
      GoogleSegmentsAppend(items[1..], item);
    }
  }

  /** `resp[0].map(...)...`: `resp[0]` must be an array. */
  function GoogleText(resp: JsValue): (r: Option<string>)
    ensures r.Some? <==> Get(resp, "0").Arr? && forall i :: 0 <= i < |Get(resp, "0").items| ==> !Nullish(Get(resp, "0").items[i])
  {
    match Get(resp, "0")
    case Arr(items) => GoogleSegmentsText(items)
    case _ => None
  }

  /** `resp.error_code` first, then the parser for the configured translator. */
  function Classify(google: bool, resp: JsValue): (a: Attempt<string, Failure>)
    ensures Nullish(resp) ==> a == Rejects(TypeError)
    ensures !Nullish(resp) && Get(resp, "error_code") == Str("52003") ==> a == Resolves(ConfigErrorText)
    ensures !Nullish(resp) && Get(resp, "error_code") == Str("54004") ==> a == Resolves(BalanceErrorText)
    ensures !Nullish(resp) && Truthy(Get(resp, "error_code")) && Get(resp, "error_code") !in {Str("52003"), Str("54004")}
            ==> a == Rejects(ResultError)
    ensures !Nullish(resp) && !Truthy(Get(resp, "error_code")) ==>
      var text := if google then GoogleText(resp) else TransResultText(resp);
      a == (if text.Some? then Resolves(text.value) else Rejects(TypeError))
  {
    match Member(resp, "error_code")
    case None => Rejects(TypeError)
    case Some(code) =>
      if code == Str("52003") then Resolves(ConfigErrorText)
      else if code == Str("54004") then Resolves(BalanceErrorText)
      else if Truthy(code) then Rejects(ResultError)
      else
        var text := if google then GoogleText(resp) else TransResultText(resp);
        if text.Some? then Resolves(text.value) else Rejects(TypeError)
  }

  /** How `translate` settles once the request is made. */
  function Outcome(google: bool, response: Response): (a: Attempt<string, Failure>)
    ensures response.NetworkError? ==> a == Rejects(FetchFailed)
    ensures response.NotJson? ==> a == Rejects(JsonFailed)
    ensures response.Json? ==> a == Classify(google, response.body)
  {
    match response
    case NetworkError => Rejects(FetchFailed)
    case NotJson => Rejects(JsonFailed)
    case Json(body) => Classify(google, body)
  }

  /** The function handed to `retry`: it rejects when the resolved result has a truthy
      `error_code`, which a string never has, so it passes every outcome through. */
  function CheckResult(a: Attempt<string, Failure>): (r: Attempt<string, Failure>)
    ensures r == a
  {
    match a
    case Rejects(_) => a
    case Resolves(res) =>
      assert Get(Str(res), "error_code") == Undefined by {
        assert "error_code" != "length";
        assert CanonicalIndex("error_code").None?;
      }
      if Truthy(Get(Str(res), "error_code")) then Rejects(ConcurrencyError) else Resolves(res)
  }

  /** The function `retry` is given for `translate(text, locale)`: attempt `k` fetches
      `RequestUrl(.., k)`, and the worker's configuration at that time decides the API. */
  function Attempts(config: Option<Config>, text: JsValue, locale: JsValue, env: Environment): nat -> Attempt<string, Failure> {
    (k: nat) => CheckResult(Outcome(UsesGoogle(config), env.responses(k, RequestUrl(config, text, locale, env, k))))
  }

  /** The URLs of the successive attempts. */
  function Urls(config: Option<Config>, text: JsValue, locale: JsValue, env: Environment): nat -> string {
    (k: nat) => RequestUrl(config, text, locale, env, k)
  }

  /** The two replies a translate request can get. */
  datatype Reply = TranslateResult(translateResult: string) | TranslateError(translateResult: string)

  /** Everything one message leads to: the replies sent, the URLs fetched and the
      delays waited, whether the listener returned `true` (keeping the reply channel
      open), and whether the configuration is re-read and the tabs told. */
  datatype Exchange = Exchange(
    replies: seq<Reply>,
    urls: seq<string>,
    delaysMs: seq<int>,
    keepOpen: bool,
    reconfigure: bool)

  /** The text of the reply for a settled translation. */
  function ReplyFor(settled: Settled<string, Failure>): (r: Reply)
    ensures settled.Fulfilled? ==> r == TranslateResult(settled.value)
    ensures settled.Rejected? && settled.error.name == TimeoutName && settled.error.message == TimeoutMessage
            ==> r == TranslateError(ErrorReplyPrefix + (TimeoutName + ": " + TimeoutMessage))
  {
    match settled
    case Fulfilled(v) => TranslateResult(v)
    case Rejected(e) => TranslateError(ErrorReplyPrefix + ErrorToString(e.name, e.message))
  }

  /** The retried translation of a truthy text: exactly one reply after one to five
      attempts spaced 1000 ms apart, carrying the first resolved value, or the timeout
      error's text once all five attempts have rejected. */
  function TranslateExchange(attempts: nat -> Attempt<string, Failure>, urls: nat -> string): (ex: Exchange)
    ensures |ex.replies| == 1 && ex.keepOpen && !ex.reconfigure
    ensures 1 <= |ex.urls| <= 5
    ensures forall k :: 0 <= k < |ex.urls| ==> ex.urls[k] == urls(k)
    ensures |ex.delaysMs| == |ex.urls| - 1
    ensures forall k :: 0 <= k < |ex.delaysMs| ==> ex.delaysMs[k] == 1000
    ensures forall k :: 0 <= k < |ex.urls| - 1 ==> attempts(k).Rejects?
    ensures ex.replies[0].TranslateResult? ==> attempts(|ex.urls| - 1) == Resolves(ex.replies[0].translateResult)
    ensures ex.replies[0].TranslateError? ==>
      && |ex.urls| == 5
      && attempts(4).Rejects?
      && ex.replies[0].translateResult == ErrorReplyPrefix + (TimeoutName + ": " + TimeoutMessage)
  {
    var run := Retry(attempts, 0, 1, 5, 0);
    Exchange([ReplyFor(run.settled)], seq(run.calls, k requires 0 <= k => urls(k)), run.delaysMs, true, false)
  }

  /** The `chrome.runtime.onMessage` listener. A translate request with falsy text gets
      no reply and closes the channel; any other translate request gets the retried
      translation's one reply; `config-update` re-reads the configuration. */
  function HandleMessage(config: Option<Config>, request: JsValue, env: Environment): (ex: Exchange)
    ensures var payload := PayloadOf(request);
      ex.keepOpen <==> !(IsType(request, "translate") && !Truthy(Get(payload, "text")))
    ensures ex.reconfigure <==> IsType(request, "config-update")
    ensures var text := Get(PayloadOf(request), "text");
      var locale := LocaleOf(PayloadOf(request));
      IsType(request, "translate") && Truthy(text) ==>
        ex == TranslateExchange(Attempts(config, text, locale, env), Urls(config, text, locale, env))
    ensures !(IsType(request, "translate") && Truthy(Get(PayloadOf(request), "text"))) ==>
      ex.replies == [] && ex.urls == [] && ex.delaysMs == []
  {
    if IsType(request, "translate") then
      var payload := PayloadOf(request);
      var text := Get(payload, "text");
      if !Truthy(text) then Exchange([], [], [], false, false)
      else
        var locale := LocaleOf(payload);
        TranslateExchange(Attempts(config, text, locale, env), Urls(config, text, locale, env))
    else
      Exchange([], [], [], true, IsType(request, "config-update"))
  }

  /** A Baidu credentials error is answered at once with the configuration hint. */
  lemma CredentialsErrorAnsweredAtOnce(config: Option<Config>, text: JsValue, locale: JsValue, env: Environment, body: JsValue)
    requires env.responses(0, RequestUrl(config, text, locale, env, 0)) == Json(body)
    requires !Nullish(body) && Get(body, "error_code") == Str("52003")
    ensures var ex := TranslateExchange(Attempts(config, text, locale, env), Urls(config, text, locale, env));
      ex.replies == [TranslateResult(ConfigErrorText)] && |ex.urls| == 1
  {
    assert Attempts(config, text, locale, env)(0) == Resolves(ConfigErrorText);
  }

  /** The icon for the tab that became active. */
  function ActivatedIcon(url: string): (icon: Icon)
    ensures icon == MainLogo <==> IsTwitterUrl(url)
  {
    if IsTwitterUrl(url) then MainLogo else DisabledLogo
  }

  /** The service worker's global state. */
  class Worker {
    /** `globalThis.config`; None until `init` has run. */
    var config: Option<Config>

    constructor()
      ensures config == None
    {
      config := None;
    }

    /** `init()`, given what `chrome.storage.local.get()` resolves with. */
    method Init(storage: Storage)
      modifies this
      ensures config == Some(ConfigFrom(storage))
    {
      var appId := Read(storage, "appId");
      var appKey := Read(storage, "appKey");
      config := Some(Config(appId, appKey, if Truthy(appId) && Truthy(appKey) then "baidu" else "google"));
    }

    /** The URL `translate(text, locale)` fetches on attempt `k`: `url` is assigned in
        one of the two branches, and the Baidu parameters get `sign` added in place. */
    method BuildUrl(text: JsValue, locale: JsValue, env: Environment, k: nat) returns (url: string)
      ensures url == RequestUrl(config, text, locale, env, k)
    {
      url := "";
      if config.Some? && config.value.translator == "google" {
        url := GoogleTranslatorApi + StringifyQueryParameter(GoogleParams(text));
      } else {
        var salt := RandomString(env.randoms(k), 5);
        var params := UnsignedParams(text, locale, AppIdOf(config), salt);
        params := params + [("sign", Str(GenerateSignature(env.md5, AppIdOf(config), text, Str(salt), AppKeyOf(config))))];
        assert params == SignedParams(env.md5, text, locale, AppIdOf(config), AppKeyOf(config), salt);
        url := BaiduTranslatorApi + "?" + StringifyQueryParameter(params);
      }
    }

    /** `translate(text, locale)` as attempt `k` runs it: the request, then the
        classification of what comes back. */
    method Translate(text: JsValue, locale: JsValue, env: Environment, k: nat) returns (url: string, result: Attempt<string, Failure>)
      ensures url == RequestUrl(config, text, locale, env, k)
      ensures result == Outcome(UsesGoogle(config), env.responses(k, url))
    {
      url := BuildUrl(text, locale, env, k);
      var response := env.responses(k, url);
      match response
      case NetworkError => result := Rejects(FetchFailed);
      case NotJson => result := Rejects(JsonFailed);
      case Json(resp) => result := Classify(UsesGoogle(config), resp);
    }

    /** The message listener; a `config-update` message re-runs `init` with the current
        storage (and tells every twitter tab, which is not modelled). */
    method OnMessage(request: JsValue, storage: Storage, env: Environment) returns (ex: Exchange)
      modifies this
      ensures ex == HandleMessage(old(config), request, env)
      ensures config == if IsType(request, "config-update") then Some(ConfigFrom(storage)) else old(config)
    {
      ex := HandleMessage(config, request, env);
      if request.Obj? && Get(request, "type") == Str("config-update") {
        Init(storage);
      }
    }
  }
}
