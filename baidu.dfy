/**
  What the service worker and the legacy background script share about the Baidu
  translation API: the signed request parameters, the shape of one attempt's network
  exchange, and the reading of `trans_result`. MD5 is a parameter: any function from
  strings to strings.
*/
module Baidu {
  import opened Wrappers
  import opened JsStrings
  import opened JsValues
  import opened Utils

  /** How `await fetch(url)` followed by `await response.json()` ends for one attempt. */
  datatype Response = NetworkError | NotJson | Json(body: JsValue)

  /** Why an attempt's promise rejects. */
  datatype Failure =
    | FetchFailed       // `fetch` rejected
    | JsonFailed        // `response.json()` rejected
    | TypeError         // a property read on `null` or `undefined`, or `map` on a non-array
    | ResultError       // `new Error("translate result error!")`
    | ConcurrencyError  // `new Error("Exceed the maximum number of concurrent!")`

  /** The network as a whole: attempt `k` draws the base-36 text `randoms(k)` for its
      salt, and the request for `url` made by attempt `k` ends as `responses(k, url)`. */
  datatype Environment = Environment(
    randoms: nat -> string,
    responses: (nat, string) -> Response,
    md5: string -> string)

  /** The text `generateSignature` hashes: the template literal renders every field with
      `String`, so `undefined` fields become "undefined". */
  function SignatureText(appid: JsValue, q: JsValue, salt: JsValue, appkey: JsValue): string {
    ToString(appid) + ToString(q) + ToString(salt) + ToString(appkey)
  }

  /** `generateSignature({ appid, q, salt }, appkey)`, given the three fields it reads
      from the request object. */
  function GenerateSignature(md5: string -> string, appid: JsValue, q: JsValue, salt: JsValue, appkey: JsValue): string {
    md5(SignatureText(appid, q, salt, appkey))
  }

  /** The request object before it is signed, keys in insertion order. */
  function UnsignedParams(text: JsValue, locale: JsValue, appid: JsValue, salt: string): seq<(string, JsValue)> {
    [("q", text), ("from", locale), ("to", Str("zh")), ("appid", appid), ("salt", Str(salt))]
  }

  /** The request object after `params.sign = generateSignature(params, appkey)`: the
      five fields in order, then `sign`, the MD5 of app id, text, salt and key in that order. */
  function SignedParams(md5: string -> string, text: JsValue, locale: JsValue, appid: JsValue, appkey: JsValue, salt: string): (r: seq<(string, JsValue)>)
    ensures |r| == 6 && r[..5] == UnsignedParams(text, locale, appid, salt)
    ensures r[5] == ("sign", Str(md5(ToString(appid) + ToString(text) + salt + ToString(appkey))))
  {
    var params := UnsignedParams(text, locale, appid, salt);
    var r := params + [("sign", Str(GenerateSignature(md5, appid, text, Str(salt), appkey)))];
    assert r[..5] == params;
    r
  }

  /** An injective hash tells different inputs apart. */
  lemma HashDistinct(md5: string -> string, x: string, y: string)
    requires forall a, b :: md5(a) == md5(b) ==> a == b
    requires x != y
    ensures md5(x) != md5(y)
  {
  }

  /** Equal strings with equal surroundings have equal middles. */
  lemma Cancel(a: string, x: string, y: string, c: string)
    requires a + x + c == a + y + c
    ensures x == y
  {
    var s := a + x + c;
    assert |x| == |y|;
    assert x == s[|a|..|a| + |x|];
    assert y == (a + y + c)[|a|..|a| + |y|];
  }

  /** The text sits between the app id and the salt and key. */
  lemma CancelText(a: string, x: string, y: string, b: string, k: string)
    requires a + x + b + k == a + y + b + k
    ensures x == y
  {
    assert a + x + b + k == a + x + (b + k);
    assert a + y + b + k == a + y + (b + k);
    Cancel(a, x, y, b + k);
  }

  /** With an injective hash, two requests that differ only in the text get different
      signatures. */
  lemma SignatureSeparatesTexts(md5: string -> string, appid: JsValue, q1: JsValue, q2: JsValue, salt: string, appkey: JsValue)
    requires forall a, b :: md5(a) == md5(b) ==> a == b
    requires ToString(q1) != ToString(q2)
    ensures md5(ToString(appid) + ToString(q1) + salt + ToString(appkey))
         != md5(ToString(appid) + ToString(q2) + salt + ToString(appkey))
  {
    var a, x, y, k := ToString(appid), ToString(q1), ToString(q2), ToString(appkey);
    if a + x + salt + k == a + y + salt + k {
      CancelText(a, x, y, salt, k);
    }
    HashDistinct(md5, a + x + salt + k, a + y + salt + k);
  }

  /** The salt sits between the app id and text and the key. */
  lemma CancelSalt(a: string, q: string, x: string, y: string, k: string)
    requires a + q + x + k == a + q + y + k
    ensures x == y
  {
    Cancel(a + q, x, y, k);
  }

  /** With an injective hash, two requests that differ only in their salts get different
      signatures. */
  lemma SignatureSeparatesSalts(md5: string -> string, appid: JsValue, q: JsValue, salt1: string, salt2: string, appkey: JsValue)
    requires forall a, b :: md5(a) == md5(b) ==> a == b
    requires salt1 != salt2
    ensures md5(ToString(appid) + ToString(q) + salt1 + ToString(appkey))
         != md5(ToString(appid) + ToString(q) + salt2 + ToString(appkey))
  {
    var a, t, k := ToString(appid), ToString(q), ToString(appkey);
    if a + t + salt1 + k == a + t + salt2 + k {
      CancelSalt(a, t, salt1, salt2, k);
    }
    HashDistinct(md5, a + t + salt1 + k, a + t + salt2 + k);
  }

  /** The plain concatenation has no field boundaries: app id "1" with text "23" and app id
      "12" with text "3" are signed alike, whatever the hash. */
  lemma SignatureBoundaryCollision(md5: string -> string, salt: string, appkey: JsValue)
    ensures md5(ToString(Str("1")) + ToString(Str("23")) + salt + ToString(appkey))
         == md5(ToString(Str("12")) + ToString(Str("3")) + salt + ToString(appkey))
  {
    assert ToString(Str("1")) + ToString(Str("23")) == ToString(Str("12")) + ToString(Str("3"));
  }

  /** `items.map((item) => item.dst)`: None (a TypeError) when an item is `null` or `undefined`. */
  function Dsts(items: seq<JsValue>): (r: Option<seq<JsValue>>)
    ensures r.Some? <==> forall i :: 0 <= i < |items| ==> !Nullish(items[i])
    ensures r.Some? ==> |r.value| == |items| && forall i :: 0 <= i < |items| ==> r.value[i] == Get(items[i], "dst")
  {
    if items == [] then Some([])
    else
      match (Member(items[0], "dst"), Dsts(items[1..]))
      case (Some(d), Some(rest)) => Some([d] + rest)
      case (None, _) => None
      case (_, None) => assert !Nullish(items[0]); assert forall i :: 1 <= i < |items| ==> items[1..][i - 1] == items[i]; None
  }

  /** `resp.trans_result.map((item) => item.dst).join("\n")`: None when it throws. */
  function TransResultText(resp: JsValue): (r: Option<string>)
    ensures r.Some? <==> Get(resp, "trans_result").Arr? && Dsts(Get(resp, "trans_result").items).Some?
    ensures r.Some? ==> r.value == ArrayJoin(Dsts(Get(resp, "trans_result").items).value, "\n")
  {
    match Get(resp, "trans_result")
    case Arr(items) =>
      (match Dsts(items)
       case Some(ds) => Some(ArrayJoin(ds, "\n"))
       case None => None)
    case _ => None
  }

  /** When every `dst` is a string without a line feed, splitting the joined text at line
      feeds gives the translated segments back, one per item. */
  lemma TransResultSegments(items: seq<JsValue>, segments: seq<string>)
    requires |items| == |segments| >= 1
    requires forall i :: 0 <= i < |items| ==> items[i].Obj? && Get(items[i], "dst") == Str(segments[i])
    requires forall i :: 0 <= i < |segments| ==> '\n' !in segments[i]
    ensures var r := TransResultText(Obj([("trans_result", Arr(items))]));
      r.Some? && Split(r.value, '\n') == segments
  {
    var ds := Dsts(items).value;
    assert forall i :: 0 <= i < |ds| ==> ds[i] == Str(segments[i]);
    ArrayJoinStrings(ds, segments, "\n");
    SplitJoin(segments, '\n');
  }

  /** The keys of the Baidu request and the strings its values stand for. */
  lemma BaiduPairs(md5: string -> string, text: JsValue, locale: JsValue, appid: JsValue, appkey: JsValue, salt: string)
    ensures StringPairs(SignedParams(md5, text, locale, appid, appkey, salt)) == [
      ("q", ToString(text)), ("from", ToString(locale)), ("to", "zh"), ("appid", ToString(appid)),
      ("salt", salt), ("sign", md5(ToString(appid) + ToString(text) + salt + ToString(appkey)))]
  {
    var params := SignedParams(md5, text, locale, appid, appkey, salt);
    assert params[..5] == UnsignedParams(text, locale, appid, salt);
    assert params[4] == ("salt", Str(salt));
  }

  /** The Baidu query carries `q`, `from`, `to`, `appid`, `salt` and last `sign`, the MD5
      of app id, text, salt and key concatenated. */
  lemma BaiduQuery(md5: string -> string, text: JsValue, locale: JsValue, appid: JsValue, appkey: JsValue, salt: string)
    ensures ParseQuery(StringifyQueryParameter(SignedParams(md5, text, locale, appid, appkey, salt))) == Some([
      ("q", ToString(text)), ("from", ToString(locale)), ("to", "zh"), ("appid", ToString(appid)),
      ("salt", salt), ("sign", md5(ToString(appid) + ToString(text) + salt + ToString(appkey)))])
  {
    ParseStringify(SignedParams(md5, text, locale, appid, appkey, salt));
    BaiduPairs(md5, text, locale, appid, appkey, salt);
  }

  /** A signed request URL `base?query`: after the base and the `?` comes a query that
      parses back to the six signed pairs. */
  lemma SignedUrlQuery(base: string, md5: string -> string, text: JsValue, locale: JsValue, appid: JsValue, appkey: JsValue, salt: string)
    ensures var url := base + "?" + StringifyQueryParameter(SignedParams(md5, text, locale, appid, appkey, salt));
      && url[..|base| + 1] == base + "?"
      && ParseQuery(url[|base| + 1..]) == Some([
        ("q", ToString(text)), ("from", ToString(locale)), ("to", "zh"), ("appid", ToString(appid)),
        ("salt", salt), ("sign", md5(ToString(appid) + ToString(text) + salt + ToString(appkey)))])
  {
    var query := StringifyQueryParameter(SignedParams(md5, text, locale, appid, appkey, salt));
    var url := base + "?" + query;
    assert url[..|base| + 1] == base + "?";
    assert url[|base| + 1..] == query;
    BaiduQuery(md5, text, locale, appid, appkey, salt);
  }
}
