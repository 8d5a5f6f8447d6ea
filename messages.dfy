/**
  What the two message listeners (src/service_worker.js and src/background.js) read
  from a request before they act on it.
*/
module Messages {
  import opened JsValues

  /** `request?.type === t`. */
  predicate IsType(request: JsValue, t: string) {
    !Nullish(request) && Get(request, "type") == Str(t)
  }

  /** `request?.payload || {}`. */
  function PayloadOf(request: JsValue): JsValue {
    var p := if Nullish(request) then Undefined else Get(request, "payload");
    if Truthy(p) then p else Obj([])
  }

  /** `locale = "auto"` in the destructuring: the default replaces `undefined` only. */
  function LocaleOf(payload: JsValue): (l: JsValue)
    ensures Get(payload, "locale") != Undefined ==> l == Get(payload, "locale")
    ensures Get(payload, "locale") == Undefined ==> l == Str("auto")
  {
    var l := Get(payload, "locale");
    if l == Undefined then Str("auto") else l
  }
}
