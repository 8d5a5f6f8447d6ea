/**
  The ECMAScript string operations the extension relies on: `String.prototype.trim`,
  `indexOf`, `split` with a one-character separator, `Array.prototype.join` over
  strings, and the decimal rendering of a non-negative integer.
  Dafny strings hold Unicode scalar values, so UTF-16 code units are not modelled.
*/
module JsStrings {
  import opened Wrappers

  /** LineTerminator code points (section 12.3 of ECMA-262). */
  predicate IsLineTerminator(c: char) {
    c == '\n' || c == '\r' || c == '\U{2028}' || c == '\U{2029}'
  }

  /** WhiteSpace (section 12.2 of ECMA-262, category Zs written out) or LineTerminator:
      exactly the code points `trim` removes. */
  predicate IsTrimmable(c: char) {
    || c == '\t' || c == '\U{000B}' || c == '\U{000C}' || c == ' '
    || c == '\U{00A0}' || c == '\U{FEFF}' || c == '\U{1680}'
    || ('\U{2000}' <= c <= '\U{200A}')
    || c == '\U{202F}' || c == '\U{205F}' || c == '\U{3000}'
    || IsLineTerminator(c)
  }

  /** Neither end of `s` is a code point `trim` would remove. */
  predicate IsTrimmed(s: string) {
    |s| == 0 || (!IsTrimmable(s[0]) && !IsTrimmable(s[|s| - 1]))
  }

  /** The first index at or after `i` whose code point `trim` keeps, or `|s|`. */
  function FirstKept(s: string, i: nat): (a: nat)
    requires i <= |s|
    decreases |s| - i
    ensures i <= a <= |s|
    ensures forall k :: i <= k < a ==> IsTrimmable(s[k])
    ensures a < |s| ==> !IsTrimmable(s[a])
  {
    if i < |s| && IsTrimmable(s[i]) then FirstKept(s, i + 1) else i
  }

  /** The end of the last code point in `s[lo..j]` that `trim` keeps, or `lo`. */
  function LastKept(s: string, lo: nat, j: nat): (b: nat)
    requires lo <= j <= |s|
    decreases j
    ensures lo <= b <= j
    ensures forall k :: b <= k < j ==> IsTrimmable(s[k])
    ensures b > lo ==> !IsTrimmable(s[b - 1])
  {
    if j > lo && IsTrimmable(s[j - 1]) then LastKept(s, lo, j - 1) else j
  }

  /** How many code points `trim` removes from the front of `s`. */
  function TrimOffset(s: string): (a: nat)
    ensures a <= |s|
  {
    FirstKept(s, 0)
  }

  /** Where the text `trim` keeps ends. */
  function TrimLimit(s: string): (b: nat)
    ensures TrimOffset(s) <= b <= |s|
  {
    LastKept(s, TrimOffset(s), |s|)
  }

  /** `String.prototype.trim`: white space and line terminators removed from both ends.
      The result is the slice of `s` between `TrimOffset(s)` and `TrimLimit(s)`, neither
      end of it is trimmable, and every code point outside it is. */
  function Trim(s: string): (r: string)
    ensures IsTrimmed(r)
    ensures IsTrimmed(s) ==> r == s
    ensures r == s[TrimOffset(s)..TrimLimit(s)]
    ensures forall i :: 0 <= i < TrimOffset(s) ==> IsTrimmable(s[i])
    ensures forall i :: TrimLimit(s) <= i < |s| ==> IsTrimmable(s[i])
  {
    var a := TrimOffset(s);
    var b := TrimLimit(s);
    assert a == b ==> forall i :: 0 <= i < |s| ==> IsTrimmable(s[i]);
    s[a..b]
  }

  /** Trimming adds no code point. */
  lemma TrimAvoids(s: string, c: char)
    requires c !in s
    ensures c !in Trim(s)
  {
    assert Trim(s) == s[TrimOffset(s)..TrimLimit(s)];
  }

  /** `s.replace(/c/g, "")` for a single character `c`: every occurrence of `c` removed. */
  function RemoveAll(s: string, c: char): (r: string)
    ensures c !in r
    ensures forall d :: d != c ==> (d in r <==> d in s)
    ensures c !in s ==> r == s
    ensures |s| > 0 && s[0] != c ==> |r| > 0 && r[0] == s[0]
    ensures |s| > 0 && s[|s| - 1] != c ==> |r| > 0 && r[|r| - 1] == s[|s| - 1]
  {
    if |s| == 0 then ""
    else if s[0] == c then RemoveAll(s[1..], c)
    else assert s == [s[0]] + s[1..]; [s[0]] + RemoveAll(s[1..], c)
  }

  /** `pat` occurs in `s` starting at index `p`. */
  predicate OccursAt(s: string, pat: string, p: int) {
    0 <= p && p + |pat| <= |s| && s[p..p + |pat|] == pat
  }

  /** `s.indexOf(pat, from)`: the least index at or after `from` where `pat` occurs. */
  function IndexOf(s: string, pat: string, from: nat): (r: Option<nat>)
    decreases |s| - from
    ensures r.Some? ==> from <= r.value && OccursAt(s, pat, r.value)
    ensures r.Some? ==> forall q :: from <= q < r.value ==> !OccursAt(s, pat, q)
    ensures r.None? ==> forall q :: from <= q ==> !OccursAt(s, pat, q)
  {
    if from + |pat| > |s| then None
    else if s[from..from + |pat|] == pat then Some(from)
    else IndexOf(s, pat, from + 1)
  }

  /** The decimal digit for `d`. */
  function DigitChar(d: int): (c: char)
    requires 0 <= d < 10
    ensures '0' <= c <= '9' && c as int - '0' as int == d
  {
    ('0' as int + d) as char
  }

  /** The value of a string of decimal digits. */
  function DigitsValue(s: string): nat
    requires forall i :: 0 <= i < |s| ==> '0' <= s[i] <= '9'
  {
    if |s| == 0 then 0 else DigitsValue(s[..|s| - 1]) * 10 + (s[|s| - 1] as int - '0' as int)
  }

  /** `String(n)` for a non-negative integer: its shortest decimal form, which reads back as `n`. */
  function NatToString(n: nat): (r: string)
    ensures |r| >= 1 && forall i :: 0 <= i < |r| ==> '0' <= r[i] <= '9'
    ensures DigitsValue(r) == n
    ensures |r| > 1 ==> r[0] != '0'
  {
    if n < 10 then [DigitChar(n)]
    else
      var r := NatToString(n / 10) + [DigitChar(n % 10)];
      assert r[..|r| - 1] == NatToString(n / 10);
      r
  }

  /** `String(n)` for an integer. */
  function IntToString(n: int): string {
    if n < 0 then "-" + NatToString(-n) else NatToString(n)
  }

  /** `pieces.join(sep)` for an array of strings: no leading or trailing separator. */
  function Join(pieces: seq<string>, sep: string): string
    decreases |pieces|
  {
    if |pieces| == 0 then ""
    else if |pieces| == 1 then pieces[0]
    else pieces[0] + sep + Join(pieces[1..], sep)
  }

  /** `s.split(sep)` for a one-character separator: the pieces between separators,
      which never contain it and which join back to `s`; `"".split(sep)` is `[""]`. */
  function Split(s: string, sep: char): (r: seq<string>)
    ensures |r| >= 1
    ensures forall i :: 0 <= i < |r| ==> sep !in r[i]
    ensures Join(r, [sep]) == s
  {
    if |s| == 0 then [""]
    else
      var rest := Split(s[1..], sep);
      if s[0] == sep then
        var r := [""] + rest;
        assert r[1..] == rest;
        assert Join(r, [sep]) == "" + [sep] + Join(rest, [sep]);
        assert s == [sep] + s[1..];
        r
      else
        var r := [[s[0]] + rest[0]] + rest[1..];
        assert s == [s[0]] + s[1..];
        if |rest| == 1 then
          r
        else
          assert r[1..] == rest[1..];
          assert Join(rest, [sep]) == rest[0] + [sep] + Join(rest[1..], [sep]);
          assert Join(r, [sep]) == [s[0]] + rest[0] + [sep] + Join(rest[1..], [sep]);
          r
  }

  /** How `split` sees a string that starts with a separator-free prefix. */
  lemma {:induction false} SplitWithPrefix(a: string, t: string, sep: char)
    requires sep !in a
    ensures Split(a + t, sep) == [a + Split(t, sep)[0]] + Split(t, sep)[1..]
  {
    if |a| > 0 {
      var st := Split(t, sep);
      assert (a + t)[0] == a[0] && (a + t)[1..] == a[1..] + t;
      SplitWithPrefix(a[1..], t, sep);
      var rest := Split(a[1..] + t, sep);
      assert rest[0] == a[1..] + st[0] && rest[1..] == st[1..];
      assert Split(a + t, sep) == [[a[0]] + rest[0]] + rest[1..];
      assert [a[0]] + (a[1..] + st[0]) == a + st[0];
    } else {
      var r := Split(t, sep);
      assert a + t == t;
      assert a + r[0] == r[0];
      assert r == [r[0]] + r[1..];
    }
  }

  /** Splitting a join of separator-free pieces gives the pieces back. */
  lemma {:induction false} SplitJoin(pieces: seq<string>, sep: char)
    requires |pieces| >= 1
    requires forall i :: 0 <= i < |pieces| ==> sep !in pieces[i]
    ensures Split(Join(pieces, [sep]), sep) == pieces
  {
    if |pieces| == 1 {
      SplitWithPrefix(pieces[0], "", sep);
      assert pieces[0] + "" == pieces[0];
    } else {
      var rest := pieces[1..];
      SplitJoin(rest, sep);
      var t := [sep] + Join(rest, [sep]);
      assert Join(pieces, [sep]) == pieces[0] + t;
      SplitWithPrefix(pieces[0], t, sep);
      assert t[1..] == Join(rest, [sep]);
      assert Split(t, sep) == [""] + rest;
      assert pieces[0] + "" == pieces[0];
      assert pieces == [pieces[0]] + rest;
    }
  }

  /** Splitting at the separator that follows a separator-free first piece. */
  lemma SplitAfterPiece(a: string, t: string, sep: char)
    requires sep !in a
    ensures Split(a + [sep] + t, sep) == [a] + Split(t, sep)
  {
    var u := [sep] + t;
    assert a + [sep] + t == a + u;
    assert u[0] == sep && u[1..] == t;
    var su := Split(u, sep);
    assert su == [""] + Split(t, sep);
    SplitWithPrefix(a, u, sep);
    assert su[0] == "" && su[1..] == Split(t, sep);
    assert a + "" == a;
  }
}
