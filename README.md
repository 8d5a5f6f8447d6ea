# TwitterWithBaiduTranslator, modelled in Dafny

The extension adds a "translate" action to tweets. A content script sends the tweet's
text to the extension. The extension calls a translation API and replies with the
translation or an error text. The API is Google's free endpoint, or Baidu's signed
endpoint once the user has entered Baidu credentials. This project models the
extension's core:

- **`src/utils/index.js`** (module `Utils`). It holds four pieces:
  - `retry`: the number of attempts, the delay schedule, and the `timeout` error after
    the last failure;
  - `randomString`, taken over the base-36 rendering of a random number;
  - `stringifyQueryParameter`, with proofs that the query string parses back to its
    pairs;
  - `templateReplace`, as a loop over `String.prototype.replace`.
- **`src/service_worker.js`** (module `ServiceWorker`, class `Worker`). The
  configuration `init` derives from storage, the Google and Baidu request URLs, and the
  response classification. Also the `translate` / `config-update` message handling,
  with one reply after at most five attempts a second apart, and the icon on tab
  activation.
- **`src/background.js`** (module `Background`, class `Toolbar`). The older Baidu-only
  background page: the same retry-based message handling, with a different reply shape.
  Also the toolbar icon state kept by `onInstalled`, `onClicked` and `onActivated`.
- **`src/popup.js`** (module `Popup`, class `Page`). The options form: trimmed reads,
  the Baidu and LLM groups shown for the chosen translator, and the default model per
  LLM provider. Also the payload the form saves and the values it loads back from
  storage, with a proof that saving then loading shows every saved field again.

Supporting modules model the JavaScript built-ins the core relies on. `JsStrings` models
`trim`, `indexOf`, `split` and `join`. `JsValues` models values, truthiness, `ToString`,
property access and `Error.prototype.toString`. `UriEncoding` models
`encodeURIComponent` with its inverse. `ExtensionStorage` models reading
`chrome.storage.local`. `Tabs` models the `/.*twitter.com\/.*/` test and the icon paths.
`Messages` models the message fields. `Baidu` holds the signing and `trans_result`
parsing shared by the two Baidu clients. `Agreement` relates the popup's view of the
translator to the worker's.

The outside world becomes parameters. An `Environment` supplies the random renderings,
the fetch response for each attempt (keyed by attempt index and URL), and the md5
function. Timers become the list of delays waited. `sendResponse` becomes the list of
replies.

The popup and the worker do not agree on the translator. The popup can save translator
`llm` together with LLM settings (src/popup.js:80-98). The worker reads only `appId` and
`appKey` from storage (src/service_worker.js:7-10) and picks Baidu or Google from them,
so a stored `llm` choice is ignored (`Agreement.StoredChoiceIgnoredByWorker`). The stored
target language is not read either: the worker always asks Google for `zh_CN` and Baidu
for `zh` (src/service_worker.js:23,32).

## Model

| member | source | states |
|---|---|---|
| Utils.Schedule | src/utils/index.js:6-15 | the delay before the k-th retry is `(interval + k*intervalStep)*1000` ms, for each of the n delays |
| Utils.Retry | src/utils/index.js:1-25 | `fn` is called between 1 and maxLimit times, each after the scheduled delay; every call except the last rejected; a fulfilled run carries the last call's value; a rejected run made exactly maxLimit calls and carries an Error named `timeout` with message `Time out!` whose `detail` is the last rejection |
| Utils.RetryFailsThenSucceeds | src/utils/index.js:9-15 | when the first k calls reject and call k resolves, with k < maxLimit, retry settles with that value after k+1 calls and k delays |
| Utils.RetryExhausted | src/utils/index.js:12-22 | when every call rejects, retry rejects with the timeout error after exactly maxLimit calls |
| Utils.RetryPoll | src/utils/index.js:26-28 | for a synchronous `fn`, polling continues while calls remain and the result is not `true`, with the same delay schedule |
| Utils.RetryPollStopsAtTrue | src/utils/index.js:26-28 | polling stops at the first call that returns `true` |
| Utils.RandomString | src/utils/index.js:37-39 | the result is the base-36 rendering with `0.` dropped, cut to at most `len` characters, and exactly `len` when the rendering is long enough |
| Utils.StringifyQueryParameter | src/utils/index.js:41-46 | the query string is the encoded `key=value` pieces joined by `&`; ParseStringify proves it parses back to the keys and stringified values in order |
| Utils.QueryPiece | src/utils/index.js:43 | a `key=value` piece never contains `&` |
| Utils.QueryPieces | src/utils/index.js:42-44 | one encoded piece per key, in key order |
| Utils.StringPairs | src/utils/index.js:43 | each value is seen through its string conversion |
| Utils.ParseQueryPiece | src/utils/index.js:43 | splitting a piece at its first `=` and decoding both halves gives back the key and the value's string form |
| Utils.StringifySplits | src/utils/index.js:45 | splitting the joined string at `&` gives back exactly the pieces; no data gives the empty string |
| Utils.ParseStringify | src/utils/index.js:41-46 | parsing the query string gives back every key with its stringified value, in order |
| Utils.CleanTemplate | src/utils/index.js:49-50 | the result is trimmed and carries no newline, and a template without a newline gives exactly its trimmed text |
| Utils.TemplateReplace | src/utils/index.js:48-57 | the loop replaces `{0}`, `{1}`, … in turn with the trimmed arguments, using `String.prototype.replace` semantics |
| Utils.TemplateReplaceNoNewline | src/utils/index.js:48-57 | with newline-free arguments the result has no newline |
| Utils.TemplateReplaceKeepsInnerNewline | src/utils/index.js:54 | a newline inside an argument survives its trim and reaches the result |
| Utils.Replace | src/utils/index.js:54 | `String.prototype.replace` with a string pattern: a string without the pattern is unchanged, and otherwise everything before and after the first occurrence is kept |
| Utils.ReplaceAvoids | src/utils/index.js:54 | replacing cannot introduce a character absent from both the string and the replacement |
| Utils.ReplaceIsLiteral | src/utils/index.js:54 | a replacement without `$` is inserted literally |
| Utils.SubstitutedIsLiteral | src/utils/index.js:53-55 | when no argument contains `$`, templateReplace equals literal placeholder substitution |
| Utils.LiteralReplace | src/utils/index.js:54 | literal replacement: the first occurrence of the pattern is replaced by the text itself, and a string without the pattern is unchanged |
| Utils.ReplaceWithWholeMatch | src/utils/index.js:54 | `replace(pattern, "$&")` leaves the string unchanged |
| Utils.TemplateReplaceDollarPattern | src/utils/index.js:53-55 | an argument `$&` leaves the placeholder `{0}` in place instead of inserting `$&` |
| JsStrings.Trim | src/popup.js:22 | the result has no white space or line terminator at either end, is the input with only such code points removed at the ends, and an already trimmed string is unchanged |
| JsStrings.IndexOf | src/utils/index.js:54 | the first occurrence at or after `from`, or none when there is no occurrence |
| JsStrings.Split | src/utils/index.js:45 | the pieces contain no separator and join back to the string |
| JsStrings.SplitJoin | src/utils/index.js:45 | splitting the join of separator-free pieces gives back the pieces |
| JsValues.ErrorToString | src/service_worker.js:108 | `Error.prototype.toString` joins name and message with `: `, and drops an empty one with its separator |
| JsValues.Member | src/background.js:54 | `a.b` fails exactly on `undefined` and `null`, and otherwise reads the property |
| JsValues.ArrayJoinStrings | src/background.js:54-56 | joining string values gives the join of the strings |
| UriEncoding.EncodeUriComponent | src/utils/index.js:43 | the encoding consists of unreserved characters and `%` escapes only, so it has no `&` and no `=` |
| UriEncoding.DecodeEncode | src/utils/index.js:43 | decoding the encoding of any scalar-value string gives it back |
| UriEncoding.EncodeInjective | src/utils/index.js:43 | different strings have different encodings |
| ExtensionStorage.Read | src/service_worker.js:8 | a missing key reads as `undefined` |
| Tabs.IsTwitterUrl | src/service_worker.js:136 | the URL contains `twitter`, any character other than a line terminator, then `com/` |
| Tabs.TwitterUrlExamples | src/background.js:92 | every URL of that shape matches, whatever surrounds it |
| Tabs.IconPath | src/service_worker.js:137-139 | the enabled and disabled icons' image paths |
| Messages.LocaleOf | src/service_worker.js:78 | a missing locale defaults to `auto`, and any other value, `null` included, is kept |
| Baidu.GenerateSignature | src/service_worker.js:12-14 | md5 of appid, q, salt and appkey rendered as strings and concatenated without separators; SignatureSeparatesTexts, SignatureSeparatesSalts and SignatureBoundaryCollision state what this tells apart and what it does not |
| Baidu.SignedParams | src/service_worker.js:28-36 | the query holds q, from, to=`zh`, appid and salt in that order, then `sign` = md5(appid + q + salt + appkey) |
| Baidu.BaiduQuery | src/service_worker.js:37 | the Baidu query string parses back to exactly those six pairs with the text, locale and credentials as strings |
| Baidu.SignatureSeparatesTexts | src/service_worker.js:12-14 | with an injective md5, two texts with different string forms get different signatures |
| Baidu.SignatureSeparatesSalts | src/service_worker.js:12-14 | with an injective md5, two different salts give different signatures |
| Baidu.SignatureBoundaryCollision | src/service_worker.js:12-14 | the signed text is plain concatenation: appid `1` with text `23` signs like appid `12` with text `3` |
| Baidu.SignedUrlQuery | src/service_worker.js:37 | a URL `base?query` over the signed parameters has the base and `?` first, then a query that parses back to the six signed pairs |
| Baidu.Dsts | src/service_worker.js:61 | `map(item => item.dst)` succeeds exactly when no item is nullish, and keeps order |
| Baidu.TransResultText | src/service_worker.js:61 | a result exists exactly when `trans_result` is an array of non-nullish items, and it is their `dst` values joined by newlines |
| Baidu.TransResultSegments | src/background.js:54-56 | newline-free translated segments are joined by newlines, the first one first |
| ServiceWorker.ConfigFrom | src/service_worker.js:7-10 | the configuration keeps the stored credentials and is `baidu` exactly when both are truthy, `google` otherwise |
| ServiceWorker.GoogleQuery | src/service_worker.js:19-26 | the Google query parses back to q=text, tl=`zh_CN`, sl=`auto`, client=`dict-chrome-ex` |
| ServiceWorker.GoogleUrl | src/service_worker.js:19-26 | the Google base URL followed directly by the stringified Google parameters; GoogleUrlQuery states what the URL carries |
| ServiceWorker.GoogleUrlQuery | src/service_worker.js:19-26 | the Google URL starts with the base URL and continues with a query that parses back to q, tl=`zh_CN`, sl=`auto`, client=`dict-chrome-ex` |
| ServiceWorker.BaiduUrl | src/service_worker.js:28-37 | the Baidu API, `?`, and the stringified signed parameters; BaiduUrlQuery states what the URL carries |
| ServiceWorker.BaiduUrlQuery | src/service_worker.js:28-37 | the Baidu URL starts with the API and `?` and continues with a query that parses back to q, from, to=`zh`, appid, salt and the signature |
| ServiceWorker.RequestUrl | src/service_worker.js:17-38 | attempt k fetches the Google URL when configured for Google, and otherwise the Baidu URL with the configuration's credentials (undefined before `init`) and a salt cut from attempt k's random rendering; Worker.BuildUrl is proved equal to it |
| ServiceWorker.GoogleSegmentsText | src/service_worker.js:55-58 | the segments' first entries are readable exactly when no segment is nullish |
| ServiceWorker.GoogleSegmentsAppend | src/service_worker.js:55-58 | a further segment appends its string first entry and adds nothing for a non-string one |
| ServiceWorker.GoogleText | src/service_worker.js:54-59 | a Google text exists exactly when `resp[0]` is an array with no nullish segment |
| ServiceWorker.Outcome | src/service_worker.js:40-61 | a failed fetch and an unparseable body reject; a JSON body is classified |
| ServiceWorker.Classify | src/service_worker.js:44-61 | a nullish body fails; error code `52003` and `54004` resolve with the configuration and balance texts; any other truthy code rejects; otherwise the text is parsed per API |
| ServiceWorker.CheckResult | src/service_worker.js:86-91 | a resolved string is never rejected for its `error_code`, so each outcome passes through unchanged |
| ServiceWorker.ReplyFor | src/service_worker.js:96-111 | a fulfilled run replies `translate-result` with its value; the timeout error replies with the prefix and `timeout: Time out!` |
| ServiceWorker.TranslateExchange | src/service_worker.js:84-111 | exactly one reply after 1 to 5 fetches one second apart; every fetch but the last failed; a result reply is the last attempt's value; an error reply follows five failures and reads `发生错误，错误信息为timeout: Time out!` |
| ServiceWorker.HandleMessage | src/service_worker.js:76-120 | the listener keeps the channel open unless a translate request has no text; a translate request with text runs the retry exchange with locale defaulting to `auto`; `config-update` reconfigures; nothing else is fetched or answered |
| ServiceWorker.CredentialsErrorAnsweredAtOnce | src/service_worker.js:46-47 | a `52003` answer is replied to at once with the configuration error text after one fetch |
| ServiceWorker.ActivatedIcon | src/service_worker.js:133-141 | activating a Twitter tab shows the main logo, any other tab the disabled one |
| ServiceWorker.Worker.Init | src/service_worker.js:7-10 | the worker's configuration becomes the one derived from storage |
| ServiceWorker.Worker.BuildUrl | src/service_worker.js:17-37 | the URL is the Google one when configured for Google, and the signed Baidu one otherwise, also when `init` has not finished |
| ServiceWorker.Worker.Translate | src/service_worker.js:16-62 | the fetched URL is that request URL and the result is the response's classification |
| ServiceWorker.Worker.OnMessage | src/service_worker.js:76-120 | the message's effects are those of HandleMessage on the configuration before the message, and only `config-update` re-reads storage |
| Background.RequestUrl | src/background.js:9-23 | attempt k fetches the configured API with the signed parameters and a salt cut from attempt k's random rendering; RequestUrlQuery states what the URL carries |
| Background.RequestUrlQuery | src/background.js:9-23 | the URL starts with the API and `?` and continues with a query that parses back to q, from, to=`zh`, appid, salt and the signature of appid, text, salt and appkey |
| Background.Outcome | src/background.js:37-46 | an attempt resolves exactly when the body is readable and has no truthy `error_code`, and then with the body; a truthy code rejects with the concurrency error |
| Background.ReplyFor | src/background.js:50-65 | a fulfilled run replies with the joined `dst` text when it parses and with a TypeError when not; a rejected run replies with the timeout error as payload |
| Background.TranslateExchange | src/background.js:37-65 | exactly one reply after 1 to 5 fetches one second apart; a timeout reply follows five failures and carries the last failure as detail; otherwise the last attempt resolved and the reply is derived from it |
| Background.HandleMessage | src/background.js:29-69 | only a translate request with text fetches and replies, with locale defaulting to `auto`; the channel stays open except for a translate request without text |
| Background.RateLimitedAttempt | src/background.js:40-45 | any truthy `error_code` rejects the attempt with `Exceed the maximum number of concurrent!` |
| Background.RateLimitedEveryTime | src/background.js:37-65 | when every answer carries a truthy `error_code`, five fetches are made and the reply is the timeout error whose detail is the concurrency error |
| Background.Installed | src/background.js:79-80 | installation sets `enable` and leaves the active flag and the icon as they were |
| Background.Clicked | src/background.js:89-100 | a click off Twitter changes nothing; on Twitter it flips `enable` and shows the icon of the new setting |
| Background.Activated | src/background.js:102-116 | a Twitter tab marks the toolbar active and shows the icon for `enable`; leaving Twitter while active shows the disabled icon; otherwise nothing changes |
| Background.StepKeepsAgreement | src/background.js:89-116 | every click and activation keeps the shown icon in agreement with `enable` while active |
| Background.RunKeepsAgreement | src/background.js:89-116 | any sequence of clicks and activations keeps that agreement |
| Background.InstalledAgrees | src/background.js:79-80 | installation enables translation and starts in agreement |
| Background.ClickTwiceRestoresEnable | src/background.js:92-95 | two clicks on a Twitter tab restore `enable` and its icon |
| Background.Toolbar.OnInstalled | src/background.js:79-80 | the toolbar state becomes the installed state |
| Background.Toolbar.OnClicked | src/background.js:89-100 | the toolbar state changes as Clicked says |
| Background.Toolbar.OnActivated | src/background.js:102-116 | the toolbar state changes as Activated says |
| Popup.DefaultModel | src/popup.js:5-13 | the default model is a non-empty string or `undefined`, and `gpt-4o-mini` for the default provider `openai` |
| Popup.DefaultModelTrimmed | src/popup.js:5-13 | every default model is already trimmed |
| Popup.Value | src/popup.js:21-23 | an existing input reads as the `trim` of its text (so the read is trimmed and trimmed text reads as itself), and a missing input reads as "" |
| Popup.InputText | src/popup.js:25-30 | `undefined` and `null` set the input to "", a string sets itself |
| Popup.WithValue | src/popup.js:25-30 | setting changes only the named input, and only when it exists |
| Popup.WithGroup | src/popup.js:40-47 | an existing group is hidden exactly when not visible, and nothing else changes |
| Popup.Visibility | src/popup.js:49-53 | the Baidu group is shown exactly for `baidu` and the LLM group exactly for `llm`, an empty choice counting as `google` |
| Popup.VisibilityExclusive | src/popup.js:49-53 | the two groups are never shown together, and an empty choice hides both |
| Popup.ApplyDefaultModel | src/popup.js:55-62 | a non-empty model is kept unless forced, and a form without a model input is unchanged; otherwise the model input takes the selected provider's default, and no other input changes |
| Popup.SavePayload | src/popup.js:80-93 | the payload holds the trimmed values, and `google`, `zh-CN`, `openai` and the provider's default model in place of empty ones |
| Popup.SavePayloadSaved | src/popup.js:80-93 | every saved payload has non-empty defaulted fields, trimmed texts, and a model that is a non-empty text or `undefined` only when the provider has no default |
| Popup.StoreRead | src/popup.js:95 | after the save each of the seven keys reads back as the payload's value |
| Popup.StoreKeeps | src/popup.js:95 | the save keeps every other stored key |
| Popup.TranslatorFromStorage | src/popup.js:32-38 | a truthy stored translator wins; otherwise `baidu` exactly when both credentials are truthy, else `google` |
| Popup.LoadedValue | src/popup.js:102-114 | each input's loaded value: the translator from TranslatorFromStorage; a truthy stored language, provider or model, else `zh-CN`, `openai` or the loaded provider's default model; a non-nullish stored credential or key, else "" |
| Popup.LoadedText | src/popup.js:102-117 | a saved text field loads back as itself |
| Popup.LoadedModel | src/popup.js:105-114 | the saved model loads back as itself, or as "" when the provider has no default |
| Popup.SaveThenLoad | src/popup.js:80-117 | saving the form and opening the popup on the result shows each saved field's value in its input |
| Popup.Page.GetValue | src/popup.js:21-23 | the page's read is the form's trimmed read |
| Popup.Page.SetValue | src/popup.js:25-30 | the page becomes the form with the value set |
| Popup.Page.ToggleGroup | src/popup.js:40-47 | the page becomes the form with the group toggled |
| Popup.Page.UpdateVisibility | src/popup.js:49-53 | the page's groups follow Visibility |
| Popup.Page.MaybeApplyDefaultModel | src/popup.js:55-62 | the page follows ApplyDefaultModel |
| Popup.Page.SaveApiConfig | src/popup.js:80-93 | the payload built from the page's inputs is the form's SavePayload |
| Popup.Page.Init | src/popup.js:102-117 | the page is left as the form loaded from storage, groups updated |
| Popup.Page.OnFieldChange | src/popup.js:119-127 | a provider change applies the default model unforced; every change then updates the groups |
| Agreement.InferredTranslatorsAgree | src/popup.js:32-38 | with no stored choice the popup shows the translator the worker infers |
| Agreement.StoredChoiceIgnoredByWorker | src/service_worker.js:7-10 | a stored `llm` choice is shown by the popup while the worker uses Google or Baidu |

## Left out

- Network I/O (`fetch`, `response.json()`) is a parameter. It is a per-attempt response that is JSON, not JSON, or a network failure.
- Timers are not modelled as real time. `setTimeout` is the list of delays between attempts. The popup's debounced save and `showSavedStatus` are not modelled.
- The worker's `init()` is called without `await` (src/service_worker.js:74, 115); only its storage read inside it is awaited (line 8). The model installs the new configuration at once when `config-update` arrives (`Worker.OnMessage`). In the source the read finishes later, so a `translate` that arrives just after a `config-update` can still use the old configuration. A `config-update` that lands in the middle of a retry run is not modelled either. Every attempt of one exchange uses the configuration in force when the message arrived.
- `Math.random` is not modelled. Its base-36 rendering is a parameter. Floating point is not modelled.
- `md5` (blueimp-md5) is a parameter function, because its code is not part of this model.
- Tab queries are left out: the `chrome.tabs.reload` of the twitter tabs after install and of the active tab after a click (src/background.js:84, 96), which reload those pages, and the messages `updateAllTabsConfig` and the `url-change` broadcasts (`tabs.onUpdated`) send to content scripts. None of them changes the state the model keeps.
- The popup's `config-update` message, its `chrome.runtime?.id` guard and the write itself are not modelled. `Page.SaveApiConfig` returns the payload it would store.
- `chrome.storage` serialisation is not modelled. A stored `undefined` is read back as `undefined`, and the payload is stored as given.
- An `<input>` setter is modelled. A `<select>` element that rejects an unknown option value is not.
- Utils.Retry: requires `maxLimit >= 1`. With a smaller limit, `maxLimit -= 1` never reaches zero, and the source retries without end.
- Utils.RandomString: does not model how `Math.random` renders in base 36 (digits, exponent forms).
- Popup.DefaultModel: the lookup `LLM_DEFAULT_MODEL_MAP[provider]` is modelled on the seven own keys. Inherited properties such as `constructor` are not modelled.
- Object key order is the insertion order of the source's literals. Numeric-like keys, which JavaScript sorts first, do not occur in them.
- Strings are sequences of Unicode scalar values, so string indexing and the regex `.` count code points. JavaScript counts UTF-16 code units, and `.` without the `u` flag matches one code unit: a character outside the Basic Multilingual Plane between `twitter` and `com/` fails the source's test but passes `Tabs.IsTwitterUrl`. UTF-16 lone surrogates, which make `encodeURIComponent` throw, are not modelled.
- Default parameter values are not modelled as defaults. `Retry` and `RetryPoll` take `interval`, `maxLimit` and `intervalStep` explicitly (src/utils/index.js:1): both modelled callers pass 1 and 5 and leave `intervalStep` at its default, so the model passes 0 for it. `TemplateReplace` takes the template as a string; the default `""` (src/utils/index.js:48) is the empty string passed explicitly.
- Error objects are replied as datatypes. How `sendResponse` serialises an Error (Background's timeout payload) is not modelled.
- `createElement` and `debounce` in src/utils/index.js touch only the DOM and timers. The file src/contentScript.js, the templates, the LLM request code and the build script are not part of this model.
- Background.Clicked, Background.Activated: each handler's tab query, storage read, write and `setIcon` are one step. Interleaved callbacks, such as a double click or a click during a tab switch, are not modelled. So ClickTwiceRestoresEnable and RunKeepsAgreement hold only for handlers that do not interleave.
- Background.Installed: `onInstalled` sets `enable` but not the icon. `IconAgrees` holds after installation only because nothing was active before.

## Findings

| source | as written | input that shows it | evidently intended | confidence | as-written member | corrected member |
|---|---|---|---|---|---|---|
| src/utils/index.js:54 | `templateString.replace(\`{${i}}\`, param.trim())` passes the translated text as a replacement pattern, so `$&`, `$'`, `` $` `` and `$$` in it are expanded | the argument `$&` for a template containing `{0}` leaves `{0}` in the output instead of `$&` | the trimmed argument is inserted literally, e.g. by passing `() => param.trim()` | not executed | Utils.TemplateReplaceDollarPattern | Utils.SubstitutedIsLiteral |
