/**
  The helpers of src/utils/index.js: `retry` in its promise and polling modes,
  `randomString`, `stringifyQueryParameter` (with the query parser that inverts it)
  and `templateReplace`. Time is not modelled: `retry` runs over the outcomes of
  successive calls of its operation and records the `setTimeout` delays it asks for.
*/
module Utils {
  import opened Wrappers
  import opened JsStrings
  import opened JsValues
  import opened UriEncoding

  // ---------------------------------------------------------------------------
  // retry

  /** How one call of an asynchronous operation settles. */
  datatype Attempt<+T, +E> = Resolves(value: T) | Rejects(reason: E)

  /** An `Error` object with an extra `detail` property. */
  datatype ErrorObject<+E> = ErrorObject(name: string, message: string, detail: E)

  /** How the promise returned by `retry` settles. */
  datatype Settled<+T, +E> = Fulfilled(value: T) | Rejected(error: ErrorObject<E>)

  /** A run of `retry` in promise mode: how it settles, how many times it called the
      operation, and the delays in milliseconds it scheduled between the calls. */
  datatype RetryRun<+T, +E> = RetryRun(settled: Settled<T, E>, calls: nat, delaysMs: seq<int>)

  const TimeoutName := "timeout"
  const TimeoutMessage := "Time out!"

  /** The interval the next call of `retry` is scheduled with. */
  function NextInterval(interval: int, intervalStep: int): (r: int)
    ensures r == interval + intervalStep
  {
    if intervalStep != 0 then interval + intervalStep else interval
  }

  /** The `setTimeout` delays, in milliseconds, of the first `n` waits of `retry`: the
      interval in seconds grows by `intervalStep` after every wait. */
  function Schedule(interval: int, intervalStep: int, n: nat): (r: seq<int>)
    decreases n
    ensures |r| == n
    ensures forall k :: 0 <= k < n ==> r[k] == (interval + k * intervalStep) * 1000
  {
    if n == 0 then []
    else
      var rest := Schedule(interval + intervalStep, intervalStep, n - 1);
      var r := [interval * 1000] + rest;
      assert forall k :: 1 <= k < n ==> r[k] == rest[k - 1];
      assert forall k :: 1 <= k < n ==> (k - 1) * intervalStep == k * intervalStep - intervalStep;
      r
  }

  /** `retry(fn, interval, maxLimit, intervalStep)` when `fn` returns promises. Call
      number `k` of `fn` settles as `fn(k)`, and `first` is the number of the call this
      round makes (0 for the outermost one). It calls `fn` at most `maxLimit` times, every
      call but the last rejected, and it resolves with the first value a call resolves
      with, or rejects with a timeout error carrying the last rejection once `maxLimit`
      calls have been rejected. */
  function Retry<T, E>(fn: nat -> Attempt<T, E>, first: nat, interval: int, maxLimit: int, intervalStep: int): (run: RetryRun<T, E>)
    requires maxLimit >= 1
    decreases maxLimit
    ensures 1 <= run.calls <= maxLimit
    ensures run.delaysMs == Schedule(interval, intervalStep, run.calls - 1)
    ensures forall j :: first <= j < first + run.calls - 1 ==> fn(j).Rejects?
    ensures run.settled.Fulfilled? ==> fn(first + run.calls - 1) == Resolves(run.settled.value)
    ensures run.settled.Rejected? ==>
      && run.calls == maxLimit
      && fn(first + maxLimit - 1).Rejects?
      && run.settled.error == ErrorObject(TimeoutName, TimeoutMessage, fn(first + maxLimit - 1).reason)
  {
    var remaining := maxLimit - 1;
    match fn(first)
    case Resolves(v) => RetryRun(Fulfilled(v), 1, [])
    case Rejects(err) =>
      if remaining != 0 then
        var next := Retry(fn, first + 1, NextInterval(interval, intervalStep), remaining, intervalStep);
        RetryRun(next.settled, next.calls + 1, [interval * 1000] + next.delaysMs)
      else
        RetryRun(Rejected(ErrorObject(TimeoutName, TimeoutMessage, err)), 1, [])
  }

  /** An operation rejected by its first `k` calls and resolved by call `k < maxLimit`
      makes `retry` resolve with that value after `k + 1` calls. */
  lemma RetryFailsThenSucceeds<T, E>(fn: nat -> Attempt<T, E>, interval: int, maxLimit: int, intervalStep: int, k: nat)
    requires k < maxLimit
    requires forall j :: 0 <= j < k ==> fn(j).Rejects?
    requires fn(k).Resolves?
    ensures var run := Retry(fn, 0, interval, maxLimit, intervalStep);
      run.settled == Fulfilled(fn(k).value) && run.calls == k + 1
      && run.delaysMs == Schedule(interval, intervalStep, k)
  {
  }

  /** An operation rejected by all of its first `maxLimit` calls makes `retry` reject,
      after exactly `maxLimit` calls, with the timeout error whose detail is the last rejection. */
  lemma RetryExhausted<T, E>(fn: nat -> Attempt<T, E>, interval: int, maxLimit: int, intervalStep: int)
    requires maxLimit >= 1
    requires forall j :: 0 <= j < maxLimit ==> fn(j).Rejects?
    ensures var run := Retry(fn, 0, interval, maxLimit, intervalStep);
      && run.settled == Rejected(ErrorObject("timeout", "Time out!", fn(maxLimit - 1).reason))
      && run.calls == maxLimit
  {
  }

  /** What a call of a non-promise operation returns, as `retry` tells it apart. */
  datatype PollResult = BoolResult(b: bool) | OtherResult

  /** A run of `retry` in polling mode: the calls made and the delays scheduled. It settles
      nothing: `retry` returns `undefined` in this mode. */
  datatype PollRun = PollRun(calls: nat, delaysMs: seq<int>)

  /** `retry(fn, interval, maxLimit, intervalStep)` when `fn` returns plain values: it calls
      again after `false` or a non-boolean while the budget lasts, and stops at `true`. */
  function RetryPoll(fn: nat -> PollResult, first: nat, interval: int, maxLimit: int, intervalStep: int): (run: PollRun)
    requires maxLimit >= 1
    decreases maxLimit
    ensures 1 <= run.calls <= maxLimit
    ensures run.delaysMs == Schedule(interval, intervalStep, run.calls - 1)
    ensures forall j :: first <= j < first + run.calls - 1 ==> fn(j) != BoolResult(true)
    ensures run.calls < maxLimit ==> fn(first + run.calls - 1) == BoolResult(true)
  {
    var remaining := maxLimit - 1;
    if (fn(first).BoolResult? && fn(first).b) || remaining == 0 then
      PollRun(1, [])
    else
      var next := RetryPoll(fn, first + 1, NextInterval(interval, intervalStep), remaining, intervalStep);
      PollRun(next.calls + 1, [interval * 1000] + next.delaysMs)
  }

  /** Polling stops right after the first `true`, and only the budget stops it otherwise. */
  lemma RetryPollStopsAtTrue(fn: nat -> PollResult, interval: int, maxLimit: int, intervalStep: int, k: nat)
    requires k < maxLimit && fn(k) == BoolResult(true)
    requires forall j :: 0 <= j < k ==> fn(j) != BoolResult(true)
    ensures RetryPoll(fn, 0, interval, maxLimit, intervalStep).calls == k + 1
  {
  }

  // ---------------------------------------------------------------------------
  // randomString

  /** `Math.random().toString(36).substr(2).substr(0, len)`, where `rendering` is the
      base-36 text of the random number: at most `len` characters, taken from the front
      of the text that follows "0.". */
  function RandomString(rendering: string, len: int): (r: string)
    ensures |r| <= if len < 0 then 0 else len
    ensures |rendering| >= 2 ==> |r| <= |rendering| - 2 && r == rendering[2..2 + |r|]
    ensures |rendering| >= 2 && len >= |rendering| - 2 ==> r == rendering[2..]
    ensures |rendering| >= 2 && 0 <= len <= |rendering| - 2 ==> |r| == len
  {
    var tail := if |rendering| >= 2 then rendering[2..] else "";
    var count := if len < 0 then 0 else if len > |tail| then |tail| else len;
    tail[..count]
  }

  // ---------------------------------------------------------------------------
  // stringifyQueryParameter

  /** One `key=value` piece, both halves percent-encoded. */
  function QueryPiece(key: string, value: JsValue): (r: string)
    ensures '&' !in r
  {
    EncodeUriComponent(key) + "=" + EncodeUriComponent(ToString(value))
  }

  function QueryPieces(data: seq<(string, JsValue)>): (r: seq<string>)
    ensures |r| == |data|
    ensures forall i :: 0 <= i < |data| ==> r[i] == QueryPiece(data[i].0, data[i].1)
  {
    if data == [] then [] else [QueryPiece(data[0].0, data[0].1)] + QueryPieces(data[1..])
  }

  /** `stringifyQueryParameter(data)`, the object given by its properties in key order. */
  function StringifyQueryParameter(data: seq<(string, JsValue)>): string {
    Join(QueryPieces(data), "&")
  }

  /** The key and the string form of each value, which is what the query carries. */
  function StringPairs(data: seq<(string, JsValue)>): (r: seq<(string, string)>)
    ensures |r| == |data|
    ensures forall i :: 0 <= i < |data| ==> r[i] == (data[i].0, ToString(data[i].1))
  {
    if data == [] then [] else [(data[0].0, ToString(data[0].1))] + StringPairs(data[1..])
  }

  /** A `key=value` piece read back: split at the first `=`, both halves decoded. */
  function ParsePiece(piece: string): Option<(string, string)> {
    match IndexOf(piece, "=", 0)
    case None => None
    case Some(p) =>
      match (DecodeUriComponent(piece[..p]), DecodeUriComponent(piece[p + 1..]))
      case (Some(k), Some(v)) => Some((k, v))
      case _ => None
  }

  function ParsePieces(pieces: seq<string>): Option<seq<(string, string)>> {
    if pieces == [] then Some([])
    else
      match (ParsePiece(pieces[0]), ParsePieces(pieces[1..]))
      case (Some(kv), Some(rest)) => Some([kv] + rest)
      case _ => None
  }

  /** How a server reads a query string: `&`-separated pieces; the empty query has none. */
  function ParseQuery(query: string): Option<seq<(string, string)>> {
    if query == "" then Some([]) else ParsePieces(Split(query, '&'))
  }

  /** The first `=` of `k=v` is the one after `k` when `k` has none. */
  lemma FirstSeparator(k: string, v: string)
    requires '=' !in k
    ensures IndexOf(k + "=" + v, "=", 0) == Some(|k|)
  {
    var piece := k + "=" + v;
    assert OccursAt(piece, "=", |k|);
    forall q | 0 <= q < |k| ensures !OccursAt(piece, "=", q) {
      assert piece[q] == k[q];
    }
  }

  /** An encoded `key=value` pair is read back as the key and the value. */
  lemma ParseEncodedPiece(key: string, value: string)
    ensures ParsePiece(EncodeUriComponent(key) + "=" + EncodeUriComponent(value)) == Some((key, value))
  {
    var k, v := EncodeUriComponent(key), EncodeUriComponent(value);
    var piece := k + "=" + v;
    FirstSeparator(k, v);
    assert piece[..|k|] == k && piece[|k| + 1..] == v;
    DecodeEncode(key);
    DecodeEncode(value);
  }

  /** A piece is read back as the key and the string form of the value. */
  lemma ParseQueryPiece(key: string, value: JsValue)
    ensures ParsePiece(QueryPiece(key, value)) == Some((key, ToString(value)))
  {
    ParseEncodedPiece(key, ToString(value));
  }

  lemma {:induction false} ParseQueryPieces(data: seq<(string, JsValue)>)
    ensures ParsePieces(QueryPieces(data)) == Some(StringPairs(data))
  {
    if data != [] {
      ParseQueryPiece(data[0].0, data[0].1);
      ParseQueryPieces(data[1..]);
      assert QueryPieces(data)[1..] == QueryPieces(data[1..]);
      assert StringPairs(data) == [(data[0].0, ToString(data[0].1))] + StringPairs(data[1..]);
    }
  }

  /** The query has one `&`-separated piece per key, in key order; an empty object gives "". */
  lemma StringifySplits(data: seq<(string, JsValue)>)
    ensures data == [] ==> StringifyQueryParameter(data) == ""
    ensures data != [] ==> Split(StringifyQueryParameter(data), '&') == QueryPieces(data)
  {
    if data != [] {
      SplitJoin(QueryPieces(data), '&');
    }
  }

  /** Reading the query back gives every key with the string form of its value, in order. */
  lemma ParseStringify(data: seq<(string, JsValue)>)
    ensures ParseQuery(StringifyQueryParameter(data)) == Some(StringPairs(data))
  {
    var q := StringifyQueryParameter(data);
    if data != [] {
      StringifySplits(data);
      ParseQueryPieces(data);
      assert q != "" by {
        var pieces := QueryPieces(data);
        if |pieces| == 1 {
          assert q == pieces[0];
        } else {
          assert q == pieces[0] + "&" + Join(pieces[1..], "&");
        }
        assert |pieces[0]| >= 1;
      }
    }
  }

  // ---------------------------------------------------------------------------
  // templateReplace

  /** The `{i}` placeholder. */
  function Placeholder(i: nat): string {
    "{" + NatToString(i) + "}"
  }

  /** GetSubstitution (section 22.1.3.19.1 of ECMA-262) for a match without capture
      groups: `$$`, `$&`, `` $` `` and `$'` stand for `$`, the match, the text before it and
      the text after it; every other character is copied. */
  function Substitution(replacement: string, matched: string, before: string, after: string): string
    decreases |replacement|
  {
    if |replacement| == 0 then ""
    else if replacement[0] == '$' && |replacement| >= 2 && replacement[1] in "$&`'" then
      var part := match replacement[1]
        case '$' => "$"
        case '&' => matched
        case '`' => before
        case _ => after;
      part + Substitution(replacement[2..], matched, before, after)
    else [replacement[0]] + Substitution(replacement[1..], matched, before, after)
  }

  /** `s.replace(pattern, replacement)` for a string pattern: only the first occurrence is
      replaced, and the replacement goes through GetSubstitution. */
  function Replace(s: string, pattern: string, replacement: string): (r: string)
    ensures IndexOf(s, pattern, 0).None? ==> r == s
    ensures IndexOf(s, pattern, 0).Some? ==>
      var p := IndexOf(s, pattern, 0).value;
      var tail := s[p + |pattern|..];
      && p + |tail| <= |r|
      && r[..p] == s[..p]
      && r[|r| - |tail|..] == tail
  {
    match IndexOf(s, pattern, 0)
    case None => s
    case Some(p) =>
      var head, tail := s[..p], s[p + |pattern|..];
      var r := head + Substitution(replacement, pattern, head, tail) + tail;
      assert r[..p] == head;
      assert r[|r| - |tail|..] == tail;
      r
  }

  /** The template after `trim()` and `replace(/\n/g, "")`: trimmed, without a newline,
      and the trimmed template itself when the template has no newline. */
  function CleanTemplate(template: string): (r: string)
    ensures '\n' !in r
    ensures IsTrimmed(r)
    ensures '\n' !in template ==> r == Trim(template)
  {
    assert IsTrimmable('\n');
    TrimKeepsNewlineFree(template);
    RemoveAll(Trim(template), '\n')
  }

  /** A template without a newline still has none once trimmed. */
  lemma TrimKeepsNewlineFree(template: string)
    ensures '\n' !in template ==> '\n' !in Trim(template)
  {
    if '\n' !in template {
      TrimAvoids(template, '\n');
    }
  }

  /** The string after the first `n` rounds of templateReplace's `forEach`. */
  function Substituted(base: string, args: seq<string>, n: nat): string
    requires n <= |args|
  {
    if n == 0 then base else Replace(Substituted(base, args, n - 1), Placeholder(n - 1), Trim(args[n - 1]))
  }

  /** `templateReplace(template, ...args)`: round `i` replaces the first `{i}` of the current
      string with `args[i].trim()`. */
  method TemplateReplace(template: string, args: seq<string>) returns (r: string)
    ensures r == Substituted(CleanTemplate(template), args, |args|)
  {
    var templateString := Trim(template);
    templateString := RemoveAll(templateString, '\n');
    assert templateString == CleanTemplate(template);
    var i := 0;
    while i < |args|
      invariant 0 <= i <= |args|
      invariant templateString == Substituted(CleanTemplate(template), args, i)
    {
      templateString := Replace(templateString, Placeholder(i), Trim(args[i]));
      i := i + 1;
    }
    r := templateString;
  }

  /** A character absent from the replacement, the match and the text around it is absent
      from the substitution. */
  lemma {:induction false} SubstitutionAvoids(replacement: string, matched: string, before: string, after: string, c: char)
    requires c !in replacement && c !in matched && c !in before && c !in after
    ensures c !in Substitution(replacement, matched, before, after)
    decreases |replacement|
  {
    if |replacement| > 0 {
      if replacement[0] == '$' && |replacement| >= 2 && replacement[1] in "$&`'" {
        SubstitutionAvoids(replacement[2..], matched, before, after, c);
      } else {
        SubstitutionAvoids(replacement[1..], matched, before, after, c);
      }
    }
  }

  /** A replacement without `$` is inserted as it is. */
  lemma {:induction false} SubstitutionLiteral(replacement: string, matched: string, before: string, after: string)
    requires '$' !in replacement
    ensures Substitution(replacement, matched, before, after) == replacement
    decreases |replacement|
  {
    if |replacement| > 0 {
      SubstitutionLiteral(replacement[1..], matched, before, after);
      assert replacement == [replacement[0]] + replacement[1..];
    }
  }

  /** A character in neither `s` nor the replacement is not in `Replace(s, pattern, replacement)`. */
  lemma ReplaceAvoids(s: string, pattern: string, replacement: string, c: char)
    requires c !in s && c !in replacement
    ensures c !in Replace(s, pattern, replacement)
  {
    match IndexOf(s, pattern, 0)
    case None =>
    case Some(p) =>
      var before, after := s[..p], s[p + |pattern|..];
      assert s == before + s[p..p + |pattern|] + after;
      assert pattern == s[p..p + |pattern|];
      SubstitutionAvoids(replacement, pattern, before, after, c);
  }

  /** Without `$`, `Replace` is the literal replacement. */
  lemma ReplaceIsLiteral(s: string, pattern: string, replacement: string)
    requires '$' !in replacement
    ensures Replace(s, pattern, replacement) == LiteralReplace(s, pattern, replacement)
  {
    match IndexOf(s, pattern, 0)
    case None =>
    case Some(p) =>
      var before, after := s[..p], s[p + |pattern|..];
      SubstitutionLiteral(replacement, pattern, before, after);
      assert Replace(s, pattern, replacement) == before + replacement + after;
  }

  /** A character in neither the base nor any argument is not in the result. */
  lemma {:induction false} SubstitutedAvoids(base: string, args: seq<string>, n: nat, c: char)
    requires n <= |args|
    requires c !in base
    requires forall i :: 0 <= i < |args| ==> c !in args[i]
    ensures c !in Substituted(base, args, n)
  {
    if n > 0 {
      SubstitutedAvoids(base, args, n - 1, c);
      TrimAvoids(args[n - 1], c);
      ReplaceAvoids(Substituted(base, args, n - 1), Placeholder(n - 1), Trim(args[n - 1]), c);
    }
  }

  /** The cleaned template holds no line feed, and neither does the result as long as no
      argument carries one inside it (trimming removes only those at its ends). */
  lemma TemplateReplaceNoNewline(template: string, args: seq<string>)
    requires forall i :: 0 <= i < |args| ==> '\n' !in args[i]
    ensures '\n' !in Substituted(CleanTemplate(template), args, |args|)
  {
    SubstitutedAvoids(CleanTemplate(template), args, |args|, '\n');
  }

  /** A line feed inside an argument reaches the output: with a template holding `{0}`,
      an argument free of `$` whose trimmed text holds a line feed puts one in the result. */
  lemma TemplateReplaceKeepsInnerNewline(template: string, arg: string)
    requires IndexOf(CleanTemplate(template), Placeholder(0), 0).Some?
    requires '$' !in arg && '\n' in Trim(arg)
    ensures '\n' in Substituted(CleanTemplate(template), [arg], 1)
  {
    var c := CleanTemplate(template);
    var p := IndexOf(c, Placeholder(0), 0).value;
    SubstitutedIsLiteral(c, [arg], 1);
    var r := LiteralReplace(c, Placeholder(0), Trim(arg));
    assert r[p..p + |Trim(arg)|] == Trim(arg);
  }

  /** The replacement the code evidently means: the first occurrence of `pattern` becomes
      `replacement` character for character. */
  function LiteralReplace(s: string, pattern: string, replacement: string): (r: string)
    ensures IndexOf(s, pattern, 0).None? ==> r == s
    ensures IndexOf(s, pattern, 0).Some? ==>
      var p := IndexOf(s, pattern, 0).value;
      && |r| == |s| - |pattern| + |replacement|
      && r[..p] == s[..p]
      && OccursAt(r, replacement, p)
      && r[p + |replacement|..] == s[p + |pattern|..]
  {
    match IndexOf(s, pattern, 0)
    case None => s
    case Some(p) =>
      var r := s[..p] + replacement + s[p + |pattern|..];
      assert r[..p] == s[..p];
      assert r[p..p + |replacement|] == replacement;
      assert r[p + |replacement|..] == s[p + |pattern|..];
      r
  }

  /** templateReplace with literal substitution of the trimmed arguments. */
  function LiteralSubstituted(base: string, args: seq<string>, n: nat): string
    requires n <= |args|
  {
    if n == 0 then base else LiteralReplace(LiteralSubstituted(base, args, n - 1), Placeholder(n - 1), Trim(args[n - 1]))
  }

  /** Without `$` in the arguments, templateReplace is the literal substitution. */
  lemma {:induction false} SubstitutedIsLiteral(base: string, args: seq<string>, n: nat)
    requires n <= |args|
    requires forall i :: 0 <= i < |args| ==> '$' !in args[i]
    ensures Substituted(base, args, n) == LiteralSubstituted(base, args, n)
  {
    if n > 0 {
      SubstitutedIsLiteral(base, args, n - 1);
      var s, pattern, t := Substituted(base, args, n - 1), Placeholder(n - 1), Trim(args[n - 1]);
      TrimAvoids(args[n - 1], '$');
      ReplaceIsLiteral(s, pattern, t);
      assert Substituted(base, args, n) == Replace(s, pattern, t);
      assert LiteralSubstituted(base, args, n) == LiteralReplace(s, pattern, t);
    }
  }

  /** `$&` as a replacement stands for the match itself, so it leaves the string as it was. */
  lemma ReplaceWithWholeMatch(s: string, pattern: string)
    requires IndexOf(s, pattern, 0).Some?
    ensures Replace(s, pattern, "$&") == s
  {
    var p := IndexOf(s, pattern, 0).value;
    var before, after := s[..p], s[p + |pattern|..];
    var dollarAmp := "$&";
    assert dollarAmp[1] == '&';
    assert dollarAmp[2..] == "";
    assert Substitution(dollarAmp, pattern, before, after) == pattern + Substitution("", pattern, before, after);
    assert s == before + pattern + after;
  }

  /** As written, an argument `$&` is replaced by the placeholder it was meant to fill, so
      templateReplace(t, "$&") returns the cleaned `t` itself, where the literal
      substitution puts `$&` in the place of `{0}`. */
  lemma TemplateReplaceDollarPattern(template: string)
    requires IndexOf(CleanTemplate(template), Placeholder(0), 0).Some?
    ensures Substituted(CleanTemplate(template), ["$&"], 1) == CleanTemplate(template)
    ensures var c := CleanTemplate(template);
      OccursAt(LiteralSubstituted(c, ["$&"], 1), "$&", IndexOf(c, Placeholder(0), 0).value)
  {
    var c := CleanTemplate(template);
    var arg := "$&";
    assert IsTrimmed(arg);
    assert Trim(arg) == arg;
    ReplaceWithWholeMatch(c, Placeholder(0));
  }
}
