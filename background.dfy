/**
  The legacy background script (src/background.js): a Baidu-only translate listener
  that replies with the raw `dst` lines or the error object, and the toolbar button,
  whose stored `enable` flag and `isActived` flag decide the icon.
*/
module Background {
  import opened Wrappers
  import opened JsValues
  import opened Utils
  import opened Baidu
  import opened Tabs
  import opened Messages

  /** `config.appid`, `config.appkey` and `config.translatorAPI`, which the script reads
      from a configuration module that does not define them: they are parameters here. */
  datatype BackgroundConfig = BackgroundConfig(appid: JsValue, appkey: JsValue, translatorApi: JsValue)

  /** The URL attempt `k` fetches: the API, `?`, and the signed parameters with a fresh
      five-character salt. */
  function RequestUrl(config: BackgroundConfig, text: JsValue, locale: JsValue, env: Environment, k: nat): string {
    var salt := RandomString(env.randoms(k), 5);
    ToString(config.translatorApi) + "?" + StringifyQueryParameter(SignedParams(env.md5, text, locale, config.appid, config.appkey, salt))
  }

  /** Attempt `k`'s URL is the configured API, `?`, and a query that parses back to the
      six signed pairs, salted with the first five characters after `0.` of that attempt's
      random rendering. */
  lemma RequestUrlQuery(config: BackgroundConfig, text: JsValue, locale: JsValue, env: Environment, k: nat)
    ensures var base, salt := ToString(config.translatorApi), RandomString(env.randoms(k), 5);
      var url := RequestUrl(config, text, locale, env, k);
      && url[..|base| + 1] == base + "?"
      && ParseQuery(url[|base| + 1..]) == Some([
        ("q", ToString(text)), ("from", ToString(locale)), ("to", "zh"), ("appid", ToString(config.appid)),
        ("salt", salt), ("sign", env.md5(ToString(config.appid) + ToString(text) + salt + ToString(config.appkey)))])
  {
    SignedUrlQuery(ToString(config.translatorApi), env.md5, text, locale, config.appid, config.appkey, RandomString(env.randoms(k), 5));
  }

  /** One attempt of the retried operation: the parsed response resolves it unless
      reading its `error_code` throws or finds a truthy code. */
  function Outcome(response: Response): (a: Attempt<JsValue, Failure>)
    ensures a.Resolves? <==> response.Json? && !Nullish(response.body) && !Truthy(Get(response.body, "error_code"))
    ensures a.Resolves? ==> a.value == response.body
    ensures response.Json? && !Nullish(response.body) && Truthy(Get(response.body, "error_code")) ==> a == Rejects(ConcurrencyError)
  {
    match response
    case NetworkError => Rejects(FetchFailed)
    case NotJson => Rejects(JsonFailed)
    case Json(res) =>
      match Member(res, "error_code")
      case None => Rejects(TypeError)
      case Some(code) => if Truthy(code) then Rejects(ConcurrencyError) else Resolves(res)
  }

  /** The function `retry` is given. */
  function Attempts(config: BackgroundConfig, text: JsValue, locale: JsValue, env: Environment): nat -> Attempt<JsValue, Failure> {
    (k: nat) => Outcome(env.responses(k, RequestUrl(config, text, locale, env, k)))
  }

  /** The URLs of the successive attempts. */
  function Urls(config: BackgroundConfig, text: JsValue, locale: JsValue, env: Environment): nat -> string {
    (k: nat) => RequestUrl(config, text, locale, env, k)
  }

  /** What the `translate-error` reply carries: the timeout error `retry` rejects with,
      or the TypeError thrown in the `then` callback when `trans_result` cannot be read. */
  datatype ErrorPayload = TimeoutError(error: ErrorObject<Failure>) | ResultTypeError

  datatype Reply = TranslateResult(translateResult: string) | TranslateError(payload: ErrorPayload)

  /** The reply for a settled retry: a resolved response is answered with its `dst`
      values joined by line feeds, or with the TypeError reading them throws; a rejection
      with its error object. */
  function ReplyFor(settled: Settled<JsValue, Failure>): (r: Reply)
    ensures r.TranslateResult? <==> settled.Fulfilled? && TransResultText(settled.value).Some?
    ensures r.TranslateResult? ==> r.translateResult == TransResultText(settled.value).value
    ensures r == TranslateError(ResultTypeError) <==> settled.Fulfilled? && TransResultText(settled.value).None?
    ensures settled.Rejected? ==> r == TranslateError(TimeoutError(settled.error))
  {
    match settled
    case Fulfilled(resp) =>
      (match TransResultText(resp)
       case Some(t) => TranslateResult(t)
       case None => TranslateError(ResultTypeError))
    case Rejected(e) => TranslateError(TimeoutError(e))
  }

  /** Everything one message leads to: the replies, the URLs fetched, the delays waited
      and whether the listener returned `true`. */
  datatype Exchange = Exchange(replies: seq<Reply>, urls: seq<string>, delaysMs: seq<int>, keepOpen: bool)

  /** The retried translation of a truthy text: one reply after one to five attempts a
      second apart. A result reply comes from the first attempt that resolved; a timeout
      reply follows five rejected attempts and carries the last one's reason. */
  function TranslateExchange(attempts: nat -> Attempt<JsValue, Failure>, urls: nat -> string): (ex: Exchange)
    ensures |ex.replies| == 1 && ex.keepOpen
    ensures 1 <= |ex.urls| <= 5
    ensures forall k :: 0 <= k < |ex.urls| ==> ex.urls[k] == urls(k)
    ensures |ex.delaysMs| == |ex.urls| - 1
    ensures forall k :: 0 <= k < |ex.delaysMs| ==> ex.delaysMs[k] == 1000
    ensures forall k :: 0 <= k < |ex.urls| - 1 ==> attempts(k).Rejects?
    ensures !ex.replies[0].TranslateError? || !ex.replies[0].payload.TimeoutError? ==>
      && attempts(|ex.urls| - 1).Resolves?
      && TransResultText(attempts(|ex.urls| - 1).value) ==
           (if ex.replies[0].TranslateResult? then Some(ex.replies[0].translateResult) else None)
    ensures ex.replies[0].TranslateError? && ex.replies[0].payload.TimeoutError? ==>
      && |ex.urls| == 5
      && attempts(4).Rejects?
      && ex.replies[0].payload.error == ErrorObject(TimeoutName, TimeoutMessage, attempts(4).reason)
  {
    var run := Retry(attempts, 0, 1, 5, 0);
    Exchange([ReplyFor(run.settled)], seq(run.calls, k requires 0 <= k => urls(k)), run.delaysMs, true)
  }

  /** The `chrome.runtime.onMessage` listener: a translate request with falsy text gets no
      reply and closes the channel; any other translate request gets the retried
      translation's one reply; every other message only keeps the channel open. */
  function HandleMessage(config: BackgroundConfig, request: JsValue, env: Environment): (ex: Exchange)
    ensures var text := Get(PayloadOf(request), "text");
      ex.keepOpen <==> !(IsType(request, "translate") && !Truthy(text))
    ensures var text, locale := Get(PayloadOf(request), "text"), LocaleOf(PayloadOf(request));
      IsType(request, "translate") && Truthy(text) ==>
        ex == TranslateExchange(Attempts(config, text, locale, env), Urls(config, text, locale, env))
    ensures !(IsType(request, "translate") && Truthy(Get(PayloadOf(request), "text"))) ==>
      ex.replies == [] && ex.urls == [] && ex.delaysMs == []
  {
    if IsType(request, "translate") then
      var payload := PayloadOf(request);
      var text := Get(payload, "text");
      if !Truthy(text) then Exchange([], [], [], false)
      else
        var locale := LocaleOf(payload);
        TranslateExchange(Attempts(config, text, locale, env), Urls(config, text, locale, env))
    else
      Exchange([], [], [], true)
  }

  /** A response whose `error_code` is truthy rejects the attempt. */
  lemma RateLimitedAttempt(code: JsValue)
    requires Truthy(code)
    ensures Outcome(Json(Obj([("error_code", code)]))) == Rejects(ConcurrencyError)
  {
    assert Get(Obj([("error_code", code)]), "error_code") == code;
  }

  /** A rate-limit response on every attempt ends in the timeout reply whose detail is
      the concurrency error. */
  lemma RateLimitedEveryTime(config: BackgroundConfig, text: JsValue, locale: JsValue, env: Environment, code: JsValue)
    requires Truthy(code)
    requires forall k: nat :: env.responses(k, RequestUrl(config, text, locale, env, k)) == Json(Obj([("error_code", code)]))
    ensures var ex := TranslateExchange(Attempts(config, text, locale, env), Urls(config, text, locale, env));
      && |ex.urls| == 5
      && ex.replies == [TranslateError(TimeoutError(ErrorObject(TimeoutName, TimeoutMessage, ConcurrencyError)))]
  {
    var attempts := Attempts(config, text, locale, env);
    RateLimitedAttempt(code);
    forall k: nat ensures attempts(k) == Rejects(ConcurrencyError) {
      assert env.responses(k, RequestUrl(config, text, locale, env, k)) == Json(Obj([("error_code", code)]));
    }
    var ex := TranslateExchange(attempts, Urls(config, text, locale, env));
    assert attempts(|ex.urls| - 1).Rejects?;
  }

  // ---------------------------------------------------------------------------
  // The toolbar button

  /** The stored `enable` flag (a missing one reads as falsy, which every use treats
      like `false`), the script's `isActived` flag, and the icon last set (None while
      the manifest's default is shown). */
  datatype ToolbarState = ToolbarState(enable: bool, isActived: bool, icon: Option<Icon>)

  const InitialToolbar := ToolbarState(false, false, None)

  /** The icon that reflects `enable`. */
  function IconFor(enable: bool): Icon {
    if enable then MainLogo else DisabledLogo
  }

  /** `onInstalled`: `enable` is stored as `true`. */
  function Installed(st: ToolbarState): (r: ToolbarState)
    ensures r.enable
    ensures r.isActived == st.isActived && r.icon == st.icon
  {
    st.(enable := true)
  }

  /** `browserAction.onClicked` with the active tab's URL: on a twitter tab, `enable` is
      flipped and the icon shows the new value; elsewhere nothing happens. */
  function Clicked(st: ToolbarState, url: string): (r: ToolbarState)
    ensures !IsTwitterUrl(url) ==> r == st
    ensures IsTwitterUrl(url) ==>
      && r.enable == !st.enable && r.isActived == st.isActived
      && r.icon == Some(if st.enable then DisabledLogo else MainLogo)
  {
    if IsTwitterUrl(url) then
      st.(enable := !st.enable, icon := Some(if st.enable then DisabledLogo else MainLogo))
    else st
  }

  /** `tabs.onActivated` with the new active tab's URL. */
  function Activated(st: ToolbarState, url: string): (r: ToolbarState)
    ensures IsTwitterUrl(url) ==> r == st.(isActived := true, icon := Some(IconFor(st.enable)))
    ensures !IsTwitterUrl(url) && st.isActived ==> r == st.(isActived := false, icon := Some(DisabledLogo))
    ensures !IsTwitterUrl(url) && !st.isActived ==> r == st
  {
    if IsTwitterUrl(url) then st.(isActived := true, icon := Some(if st.enable then MainLogo else DisabledLogo))
    else if st.isActived then st.(isActived := false, icon := Some(DisabledLogo))
    else st
  }

  /** While a twitter tab is active the icon reflects `enable`. */
  predicate IconAgrees(st: ToolbarState) {
    st.isActived ==> st.icon == Some(IconFor(st.enable))
  }

  /** The events the toolbar reacts to after installation. */
  datatype ToolbarEvent = Click(clickUrl: string) | Activate(activeUrl: string)

  function Step(st: ToolbarState, e: ToolbarEvent): ToolbarState {
    match e
    case Click(url) => Clicked(st, url)
    case Activate(url) => Activated(st, url)
  }

  function Run(st: ToolbarState, events: seq<ToolbarEvent>): ToolbarState
    decreases |events|
  {
    if events == [] then st else Run(Step(st, events[0]), events[1..])
  }

  /** Every click and every activation keeps the icon in agreement with `enable`. */
  lemma StepKeepsAgreement(st: ToolbarState, e: ToolbarEvent)
    requires IconAgrees(st)
    ensures IconAgrees(Step(st, e))
  {
  }

  /** From installation on, whatever the clicks and tab switches, the icon reflects
      `enable` whenever a twitter tab is active. */
  lemma {:induction false} RunKeepsAgreement(st: ToolbarState, events: seq<ToolbarEvent>)
    requires IconAgrees(st)
    ensures IconAgrees(Run(st, events))
    decreases |events|
  {
    if events != [] {
      StepKeepsAgreement(st, events[0]);
      RunKeepsAgreement(Step(st, events[0]), events[1..]);
    }
  }

  /** Installation from the initial state enables translation and agrees with the icon. */
  lemma InstalledAgrees()
    ensures Installed(InitialToolbar).enable && IconAgrees(Installed(InitialToolbar))
  {
  }

  /** Two clicks on a twitter tab restore `enable`. */
  lemma ClickTwiceRestoresEnable(st: ToolbarState, url: string)
    requires IsTwitterUrl(url)
    ensures Clicked(Clicked(st, url), url).enable == st.enable
    ensures Clicked(Clicked(st, url), url).icon == Some(IconFor(st.enable))
  {
  }

  /** The toolbar state the background script keeps across events. */
  class Toolbar {
    var enable: bool
    var isActived: bool
    var icon: Option<Icon>

    function State(): ToolbarState
      reads this
    {
      ToolbarState(enable, isActived, icon)
    }

    constructor()
      ensures State() == InitialToolbar
    {
      enable, isActived, icon := false, false, None;
    }

    /** `onInstalled`; reloading the twitter tabs is not modelled. */
    method OnInstalled()
      modifies this
      ensures State() == Installed(old(State()))
    {
      enable := true;
    }

    /** A click with the active tab's URL; the tab reload is not modelled. */
    method OnClicked(url: string)
      modifies this
      ensures State() == Clicked(old(State()), url)
    {
      if IsTwitterUrl(url) {
        var wasEnabled := enable;
        enable := !wasEnabled;
        icon := Some(if wasEnabled then DisabledLogo else MainLogo);
      }
    }

    /** A tab switch with the new active tab's URL. */
    method OnActivated(url: string)
      modifies this
      ensures State() == Activated(old(State()), url)
    {
      if IsTwitterUrl(url) {
        isActived := true;
        icon := Some(if enable then MainLogo else DisabledLogo);
      } else if isActived {
        isActived := false;
        icon := Some(DisabledLogo);
      }
    }
  }
}
