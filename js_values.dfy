/**
  The JavaScript values the extension reads and writes: parsed JSON response bodies,
  `chrome.storage` records and runtime messages, with the few language rules the code
  depends on (truthiness, property access, `String(v)`, `Array.prototype.join`,
  `Error.prototype.toString`). Numbers are integers here; prototype members such as
  `toString` or `map` are not properties of these values.
*/
module JsValues {
  import opened Wrappers
  import opened JsStrings

  /** An object's properties are kept in insertion order; a later property of the
      same name shadows an earlier one, as in an object literal and `JSON.parse`. */
  datatype JsValue =
    | Undefined
    | Null
    | Bool(b: bool)
    | Num(n: int)
    | Str(s: string)
    | Arr(items: seq<JsValue>)
    | Obj(props: seq<(string, JsValue)>)

  /** `v == null`: the values on which property access throws a TypeError. */
  predicate Nullish(v: JsValue) {
    v.Undefined? || v.Null?
  }

  /** ToBoolean (section 7.1.2 of ECMA-262). */
  predicate Truthy(v: JsValue) {
    match v
    case Undefined => false
    case Null => false
    case Bool(b) => b
    case Num(n) => n != 0
    case Str(s) => s != ""
    case Arr(_) => true
    case Obj(_) => true
  }

  /** `String(v)`, which template literals and `encodeURIComponent` apply to their operands. */
  function ToString(v: JsValue): string
    decreases v, 0
  {
    match v
    case Undefined => "undefined"
    case Null => "null"
    case Bool(b) => if b then "true" else "false"
    case Num(n) => IntToString(n)
    case Str(s) => s
    case Arr(items) => Join(seq(|items|, i requires 0 <= i < |items| => JoinPart(items[i])), ",")
    case Obj(_) => "[object Object]"
  }

  /** How `Array.prototype.join` renders one element: `undefined` and `null` as "". */
  function JoinPart(v: JsValue): (r: string)
    decreases v, 1
    ensures Nullish(v) ==> r == ""
    ensures v.Str? ==> r == v.s
  {
    if Nullish(v) then "" else ToString(v)
  }

  /** `Array.prototype.join(sep)`: `null` and `undefined` elements count as empty. */
  function ArrayJoin(items: seq<JsValue>, sep: string): string {
    Join(seq(|items|, i requires 0 <= i < |items| => JoinPart(items[i])), sep)
  }

  /** Joining string elements is joining the strings. */
  lemma ArrayJoinStrings(items: seq<JsValue>, strings: seq<string>, sep: string)
    requires |items| == |strings|
    requires forall i :: 0 <= i < |items| ==> items[i] == Str(strings[i])
    ensures ArrayJoin(items, sep) == Join(strings, sep)
  {
    assert seq(|items|, i requires 0 <= i < |items| => JoinPart(items[i])) == strings;
  }

  /** The array index a property key denotes, if it is the canonical decimal form of one. */
  function CanonicalIndex(key: string): (r: Option<nat>)
    ensures r.Some? ==> key == NatToString(r.value)
  {
    if |key| >= 1 && (forall i :: 0 <= i < |key| ==> '0' <= key[i] <= '9') && (|key| == 1 || key[0] != '0')
    then
      var n := DigitsValue(key);
      assert key == NatToString(n) by { DigitsCanonical(key, NatToString(n)); }
      Some(n)
    else None
  }

  /** Two canonical decimal strings with the same value are the same string. */
  lemma {:induction false} DigitsCanonical(a: string, b: string)
    requires |a| >= 1 && |b| >= 1
    requires forall i :: 0 <= i < |a| ==> '0' <= a[i] <= '9'
    requires forall i :: 0 <= i < |b| ==> '0' <= b[i] <= '9'
    requires |a| == 1 || a[0] != '0'
    requires |b| == 1 || b[0] != '0'
    requires DigitsValue(a) == DigitsValue(b)
    ensures a == b
  {
    var a', b' := a[..|a| - 1], b[..|b| - 1];
    var da, db := a[|a| - 1] as int - '0' as int, b[|b| - 1] as int - '0' as int;
    assert DigitsValue(a) == DigitsValue(a') * 10 + da;
    assert DigitsValue(b) == DigitsValue(b') * 10 + db;
    assert da == db && DigitsValue(a') == DigitsValue(b');
    if |a| == 1 || |b| == 1 {
      if |a| > 1 { LeadingDigitPositive(a); }
      if |b| > 1 { LeadingDigitPositive(b); }
      assert |a| == |b|;
      assert a == [a[0]] && b == [b[0]];
    } else {
      DigitsCanonical(a', b');
      assert a == a' + [a[|a| - 1]] && b == b' + [b[|b| - 1]];
    }
  }

  /** A canonical decimal string of two or more digits denotes a number of at least 10. */
  lemma {:induction false} LeadingDigitPositive(a: string)
    requires |a| >= 2
    requires forall i :: 0 <= i < |a| ==> '0' <= a[i] <= '9'
    requires a[0] != '0'
    ensures DigitsValue(a[..|a| - 1]) >= 1
  {
    var a' := a[..|a| - 1];
    if |a'| == 1 {
      assert DigitsValue(a') == DigitsValue(a'[..0]) * 10 + (a'[0] as int - '0' as int);
    } else {
      assert a'[0] == a[0];
      LeadingDigitPositive(a');
    }
  }

  /** The value of the last property named `key`, or `undefined`. */
  function Lookup(props: seq<(string, JsValue)>, key: string): (v: JsValue)
    decreases |props|
    ensures v != Undefined ==> exists i :: 0 <= i < |props| && props[i] == (key, v)
    ensures (forall i :: 0 <= i < |props| ==> props[i].0 != key) ==> v == Undefined
  {
    if |props| == 0 then Undefined
    else if props[|props| - 1].0 == key then props[|props| - 1].1
    else Lookup(props[..|props| - 1], key)
  }

  /** `v[key]` on a value that is not `null` or `undefined`: an object's own property,
      an array element or a one-character string, or a `length`. */
  function Get(v: JsValue, key: string): JsValue {
    match v
    case Obj(props) => Lookup(props, key)
    case Arr(items) =>
      if key == "length" then Num(|items|)
      else (match CanonicalIndex(key)
            case Some(i) => if i < |items| then items[i] else Undefined
            case None => Undefined)
    case Str(s) =>
      if key == "length" then Num(|s|)
      else (match CanonicalIndex(key)
            case Some(i) => if i < |s| then Str([s[i]]) else Undefined
            case None => Undefined)
    case _ => Undefined
  }

  /** `v.key`: a TypeError (None) when `v` is `null` or `undefined`. Optional chaining
      `v?.key` is `Get`, which yields `undefined` there. */
  function Member(v: JsValue, key: string): (r: Option<JsValue>)
    ensures r.None? <==> Nullish(v)
    ensures r.Some? ==> r.value == Get(v, key)
  {
    if Nullish(v) then None else Some(Get(v, key))
  }

  /** `Error.prototype.toString` (section 20.5.3.4 of ECMA-262) for a string name and message. */
  function ErrorToString(name: string, message: string): (r: string)
    ensures name != "" && message != "" ==> r == name + ": " + message
    ensures name == "" ==> r == message
    ensures message == "" ==> r == name
  {
    if name == "" then message else if message == "" then name else name + ": " + message
  }

  /** An element read from an array by its index. */
  lemma GetIndex(items: seq<JsValue>, i: nat)
    requires i < |items|
    ensures Get(Arr(items), NatToString(i)) == items[i]
  {
    var key := NatToString(i);
    assert key != "length" by { assert '0' <= key[0] <= '9'; }
    var c := CanonicalIndex(key);
    assert c.Some? && c.value == i;
  }
}
