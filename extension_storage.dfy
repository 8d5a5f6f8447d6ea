/**
  `chrome.storage.local` as the extension uses it: a key-value store holding JSON-like
  values. `get()` hands back every stored key; a key never written reads as `undefined`.
*/
module ExtensionStorage {
  import opened JsValues

  type Storage = map<string, JsValue>

  /** `storage[key]` on the object `get()` resolves with. */
  function Read(storage: Storage, key: string): (v: JsValue)
    ensures key !in storage ==> v == Undefined
    ensures key in storage ==> v == storage[key]
  {
    if key in storage then storage[key] else Undefined
  }
}
