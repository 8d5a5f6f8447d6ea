/**
  How the translator the popup shows relates to the one the service worker uses. Both
  infer Baidu from a pair of truthy credentials and Google otherwise, but only the popup
  looks at a stored `translator`: the worker's configuration ignores it.
*/
module Agreement {
  import opened JsValues
  import opened ExtensionStorage
  import Popup
  import ServiceWorker

  /** With no stored choice, the popup shows the translator the worker uses. */
  lemma InferredTranslatorsAgree(storage: Storage)
    requires !Truthy(Read(storage, "translator"))
    ensures Popup.TranslatorFromStorage(storage) == Str(ServiceWorker.ConfigFrom(storage).translator)
  {
  }

  /** A stored "llm" choice is shown by the popup, while the worker still picks Google
      or Baidu. */
  lemma StoredChoiceIgnoredByWorker(storage: Storage)
    requires Read(storage, "translator") == Str("llm")
    ensures Popup.TranslatorFromStorage(storage) == Str("llm")
    ensures ServiceWorker.ConfigFrom(storage).translator in {"google", "baidu"}
  {
  }
}
