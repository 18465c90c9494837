/**
 * The few JavaScript string operations the core relies on, each with the
 * semantics ECMAScript gives it: `includes`/`indexOf`, `replace` with a string
 * pattern (including the `$` patterns of the replacement), a global `replace`
 * with a literal regular expression, ASCII lower-casing, character filtering,
 * `trim`, number-to-string conversion, `join`/`split` and the `||` fallback.
 */
module Strings {
  import opened Common

  // ---------------------------------------------------------------------------
  // Occurrences of a pattern
  // ---------------------------------------------------------------------------

  /** `p` occurs in `s` starting at offset `i`. */
  predicate MatchAt(s: string, p: string, i: nat) {
    i + |p| <= |s| && s[i..i + |p|] == p
  }

  /** `i` is the leftmost offset at which `p` occurs in `s`. */
  predicate FirstMatch(s: string, p: string, i: nat) {
    MatchAt(s, p, i) && forall j: nat :: j < i ==> !MatchAt(s, p, j)
  }

  /** `s.indexOf(p, k)`: the first occurrence at or after `k`; None stands for -1. */
  function IndexFrom(s: string, p: string, k: nat): (r: Option<nat>)
    decreases |s| - k
    ensures r.Some? ==> k <= r.value && MatchAt(s, p, r.value)
    ensures r.Some? ==> forall j: nat :: k <= j < r.value ==> !MatchAt(s, p, j)
    ensures r.None? ==> forall j: nat :: k <= j ==> !MatchAt(s, p, j)
  {
    if k + |p| > |s| then None
    else if s[k..k + |p|] == p then Some(k)
    else IndexFrom(s, p, k + 1)
  }

  /** `s.indexOf(p)`. */
  function IndexOf(s: string, p: string): (r: Option<nat>)
    ensures r.Some? ==> FirstMatch(s, p, r.value)
    ensures r.None? ==> forall j: nat :: !MatchAt(s, p, j)
  {
    IndexFrom(s, p, 0)
  }

  /** `s.includes(p)`: plain substring search. */
  function Contains(s: string, p: string): (b: bool)
    ensures b <==> exists i: nat :: MatchAt(s, p, i)
  {
    IndexOf(s, p).Some?
  }

  /** Every string contains itself, at offset 0. */
  lemma ContainsItself(s: string)
    ensures Contains(s, s)
  {
    assert MatchAt(s, s, 0);
  }

  // ---------------------------------------------------------------------------
  // String.prototype.replace with a string pattern
  // ---------------------------------------------------------------------------

  /**
   * The replacement text of `replace` (GetSubstitution in ECMAScript): `$$`
   * stands for `$`, `$&` for the matched text, `` $` `` for the text before the
   * match and `$'` for the text after it. A string pattern has no capture
   * groups, so `$1`, `$<` and a lone `$` are copied as they are.
   */
  function Expand(t: string, matched: string, before: string, after: string): string
    decreases |t|
  {
    if |t| == 0 then ""
    else if t[0] == '$' && |t| >= 2 && t[1] == '$' then "$" + Expand(t[2..], matched, before, after)
    else if t[0] == '$' && |t| >= 2 && t[1] == '&' then matched + Expand(t[2..], matched, before, after)
    else if t[0] == '$' && |t| >= 2 && t[1] == '`' then before + Expand(t[2..], matched, before, after)
    else if t[0] == '$' && |t| >= 2 && t[1] == '\'' then after + Expand(t[2..], matched, before, after)
    else [t[0]] + Expand(t[1..], matched, before, after)
  }

  /** A replacement without `$` is inserted literally. */
  lemma {:induction false} ExpandLiteral(t: string, matched: string, before: string, after: string)
    requires '$' !in t
    ensures Expand(t, matched, before, after) == t
  {
    if |t| > 0 {
      assert '$' !in t[1..];
      ExpandLiteral(t[1..], matched, before, after);
    }
  }

  /** `s.replace(p, rep)` for a string `p`: only the leftmost occurrence is replaced. */
  function ReplaceFirst(s: string, p: string, rep: string): (r: string)
    ensures (forall j: nat :: !MatchAt(s, p, j)) ==> r == s
    ensures forall i: nat :: FirstMatch(s, p, i) ==>
              r == s[..i] + Expand(rep, p, s[..i], s[i + |p|..]) + s[i + |p|..]
  {
    match IndexOf(s, p)
    case None => s
    case Some(i) =>
      assert forall k: nat :: FirstMatch(s, p, k) ==> k == i;
      s[..i] + Expand(rep, p, s[..i], s[i + |p|..]) + s[i + |p|..]
  }

  /** A replacement without `$` is inserted verbatim. */
  lemma ReplaceFirstLiteral(s: string, p: string, rep: string)
    requires '$' !in rep
    ensures forall i: nat :: FirstMatch(s, p, i) ==> ReplaceFirst(s, p, rep) == s[..i] + rep + s[i + |p|..]
  {
    forall i: nat | FirstMatch(s, p, i) ensures ReplaceFirst(s, p, rep) == s[..i] + rep + s[i + |p|..] {
      ExpandLiteral(rep, p, s[..i], s[i + |p|..]);
    }
  }

  // ---------------------------------------------------------------------------
  // Global replacement of a literal regular expression by ""
  // ---------------------------------------------------------------------------

  /**
   * `s.replace(/w/g, "")` for a literal, non-empty `w`: one left-to-right pass
   * that deletes each occurrence found and resumes the search after it.
   */
  function RemoveAll(s: string, w: string): (r: string)
    requires |w| > 0
    decreases |s|
    ensures |r| <= |s|
    ensures forall c :: c in r ==> c in s
  {
    if |s| < |w| then s
    else if s[..|w|] == w then RemoveAll(s[|w|..], w)
    else [s[0]] + RemoveAll(s[1..], w)
  }

  lemma MatchAtTail(s: string, p: string, j: nat)
    requires |s| > 0
    ensures MatchAt(s, p, j + 1) <==> MatchAt(s[1..], p, j)
  {
    if j + 1 + |p| <= |s| {
      assert s[j + 1..j + 1 + |p|] == s[1..][j..j + |p|];
    }
  }

  /** A string without an occurrence of `w` passes through unchanged. */
  lemma {:induction false} RemoveAllNoMatch(s: string, w: string)
    requires |w| > 0
    requires forall j: nat :: !MatchAt(s, w, j)
    ensures RemoveAll(s, w) == s
  {
    if |s| >= |w| {
      assert !MatchAt(s, w, 0);
      forall j: nat ensures !MatchAt(s[1..], w, j) {
        MatchAtTail(s, w, j);
      }
      RemoveAllNoMatch(s[1..], w);
    }
  }

  /**
   * The pass keeps everything before the leftmost occurrence, drops that
   * occurrence and continues on what follows it.
   */
  lemma {:induction false} RemoveAllAtFirstMatch(s: string, w: string, i: nat)
    requires |w| > 0
    requires FirstMatch(s, w, i)
    ensures RemoveAll(s, w) == s[..i] + RemoveAll(s[i + |w|..], w)
    decreases i
  {
    if i == 0 {
      assert s[..|w|] == w;
    } else {
      var t := s[1..];
      FirstMatchTail(s, w, i);
      RemoveAllSkipsFirst(s, w);
      RemoveAllAtFirstMatch(t, w, i - 1);
      assert t[i - 1 + |w|..] == s[i + |w|..];
      ConsSlice(s, i, RemoveAll(s[i + |w|..], w));
    }
  }

  lemma ConsSlice(s: string, i: nat, rest: string)
    requires 0 < i <= |s|
    ensures [s[0]] + (s[1..][..i - 1] + rest) == s[..i] + rest
  {
    assert [s[0]] + s[1..][..i - 1] == s[..i];
  }

  lemma RemoveAllSkipsFirst(s: string, w: string)
    requires |w| > 0 && |s| >= |w| && !MatchAt(s, w, 0)
    ensures RemoveAll(s, w) == [s[0]] + RemoveAll(s[1..], w)
  {
    assert s[..|w|] != w;
  }

  lemma FirstMatchTail(s: string, w: string, i: nat)
    requires i > 0 && FirstMatch(s, w, i)
    ensures |s| >= |w| && !MatchAt(s, w, 0) && FirstMatch(s[1..], w, i - 1)
  {
    assert !MatchAt(s, w, 0);
    MatchAtTail(s, w, i - 1);
    forall j: nat | j < i - 1 ensures !MatchAt(s[1..], w, j) {
      MatchAtTail(s, w, j);
    }
  }

  // ---------------------------------------------------------------------------
  // Case and character filtering (ASCII)
  // ---------------------------------------------------------------------------

  function LowerChar(c: char): char {
    if 'A' <= c <= 'Z' then (c as int + 32) as char else c
  }

  /** `toLowerCase` restricted to ASCII letters. */
  function ToLowerAscii(s: string): (r: string)
    ensures |r| == |s| && forall i :: 0 <= i < |s| ==> r[i] == LowerChar(s[i])
  {
    seq(|s|, i requires 0 <= i < |s| => LowerChar(s[i]))
  }

  predicate IsLowerAlnum(c: char) {
    'a' <= c <= 'z' || '0' <= c <= '9'
  }

  /** `s.replace(/[^a-z0-9]/g, "")`. */
  function KeepLowerAlnum(s: string): (r: string)
    ensures |r| <= |s|
    ensures forall c :: c in r ==> IsLowerAlnum(c)
    ensures forall c :: c in s && IsLowerAlnum(c) ==> c in r
  {
    if s == [] then []
    else (if IsLowerAlnum(s[0]) then [s[0]] else []) + KeepLowerAlnum(s[1..])
  }

  lemma {:induction false} KeepLowerAlnumAppend(a: string, b: string)
    ensures KeepLowerAlnum(a + b) == KeepLowerAlnum(a) + KeepLowerAlnum(b)
  {
    if a == [] {
      assert a + b == b;
    } else {
      assert (a + b)[0] == a[0];
      assert (a + b)[1..] == a[1..] + b;
      KeepLowerAlnumAppend(a[1..], b);
    }
  }

  /** A string of lower-case letters and digits passes through unchanged. */
  lemma {:induction false} KeepLowerAlnumKeeps(s: string)
    requires forall k :: 0 <= k < |s| ==> IsLowerAlnum(s[k])
    ensures KeepLowerAlnum(s) == s
  {
    if s != [] {
      assert forall k :: 1 <= k < |s| ==> s[1..][k - 1] == s[k];
      KeepLowerAlnumKeeps(s[1..]);
      assert s == [s[0]] + s[1..];
    }
  }

  /** A character the filter rejects leaves no trace, wherever it stands. */
  lemma KeepLowerAlnumDrops(a: string, x: char, b: string)
    requires !IsLowerAlnum(x)
    ensures KeepLowerAlnum(a + [x] + b) == KeepLowerAlnum(a + b)
  {
    KeepLowerAlnumAppend(a + [x], b);
    KeepLowerAlnumAppend(a, [x]);
    KeepLowerAlnumAppend(a, b);
    assert [x][1..] == [];
  }

  lemma ToLowerAsciiAround(a: string, c: char, b: string)
    ensures ToLowerAscii(a + [c] + b) == ToLowerAscii(a) + [LowerChar(c)] + ToLowerAscii(b)
  {
    var s := a + [c] + b;
    assert forall k :: 0 <= k < |a| ==> s[k] == a[k];
    assert s[|a|] == c;
    assert forall k :: |a| < k < |s| ==> s[k] == b[k - |a| - 1];
  }

  lemma ToLowerAsciiAppend(a: string, b: string)
    ensures ToLowerAscii(a + b) == ToLowerAscii(a) + ToLowerAscii(b)
  {
    assert forall k :: 0 <= k < |a| ==> (a + b)[k] == a[k];
    assert forall k :: |a| <= k < |a| + |b| ==> (a + b)[k] == b[k - |a|];
  }

  // ---------------------------------------------------------------------------
  // trim
  // ---------------------------------------------------------------------------

  /** The characters `String.prototype.trim` removes: WhiteSpace and LineTerminator. */
  predicate IsJsSpace(c: char) {
    c == '\t' || c == '\n' || c == '\U{0B}' || c == '\U{0C}' || c == '\r' || c == ' '
    || c == '\U{A0}' || c == '\U{1680}' || ('\U{2000}' <= c <= '\U{200A}')
    || c == '\U{2028}' || c == '\U{2029}' || c == '\U{202F}' || c == '\U{205F}'
    || c == '\U{3000}' || c == '\U{FEFF}'
  }

  predicate AllSpace(s: string) {
    forall k :: 0 <= k < |s| ==> IsJsSpace(s[k])
  }

  function TrimStart(s: string): (r: string)
    ensures |r| <= |s| && r == s[|s| - |r|..]
    ensures AllSpace(s[..|s| - |r|])
    ensures r == [] || !IsJsSpace(r[0])
  {
    if |s| > 0 && IsJsSpace(s[0]) then
      var r := TrimStart(s[1..]);
      assert s[..|s| - |r|] == [s[0]] + s[1..][..|s| - 1 - |r|];
      r
    else s
  }

  function TrimEnd(s: string): (r: string)
    ensures |r| <= |s| && r == s[..|r|]
    ensures AllSpace(s[|r|..])
    ensures r == [] || !IsJsSpace(r[|r| - 1])
  {
    if |s| > 0 && IsJsSpace(s[|s| - 1]) then
      var r := TrimEnd(s[..|s| - 1]);
      assert s[|r|..] == s[..|s| - 1][|r|..] + [s[|s| - 1]];
      r
    else s
  }

  /**
   * `s.trim()`: the slice of `s` left after removing leading and trailing
   * white space; it is empty exactly when `s` is blank.
   */
  function Trim(s: string): (r: string)
    ensures exists i: nat :: i + |r| <= |s| && r == s[i..i + |r|]
              && AllSpace(s[..i]) && AllSpace(s[i + |r|..])
    ensures r == [] || (!IsJsSpace(r[0]) && !IsJsSpace(r[|r| - 1]))
    ensures r == [] <==> AllSpace(s)
  {
    var t := TrimStart(s);
    var r := TrimEnd(t);
    TrimSlice(s, t, r);
    r
  }

  lemma TrimSlice(s: string, t: string, r: string)
    requires |t| <= |s| && t == s[|s| - |t|..] && AllSpace(s[..|s| - |t|])
    requires t == [] || !IsJsSpace(t[0])
    requires |r| <= |t| && r == t[..|r|] && AllSpace(t[|r|..])
    ensures |s| - |t| + |r| <= |s| && r == s[|s| - |t|..|s| - |t| + |r|]
    ensures AllSpace(s[..|s| - |t|]) && AllSpace(s[|s| - |t| + |r|..])
    ensures r == [] <==> AllSpace(s)
  {
    var i := |s| - |t|;
    assert s[i + |r|..] == t[|r|..];
    if r == [] {
      assert t == [];
      forall k | 0 <= k < |s| ensures IsJsSpace(s[k]) {
        assert s[k] == s[..i][k];
      }
    } else {
      assert r[0] == s[i];
    }
  }

  // ---------------------------------------------------------------------------
  // Numbers as decimal text
  // ---------------------------------------------------------------------------

  predicate IsDigit(c: char) {
    '0' <= c <= '9'
  }

  function DigitChar(d: nat): (c: char)
    requires d < 10
    ensures IsDigit(c)
  {
    (48 + d) as char
  }

  function DigitValue(c: char): nat
    requires IsDigit(c)
  {
    c as int - 48
  }

  /** `String(n)` / `${n}` for a non-negative integer below 10^21: shortest decimal form. */
  function NatToString(n: nat): (r: string)
    decreases n
    ensures |r| >= 1 && forall c :: c in r ==> IsDigit(c)
    ensures r[0] == '0' ==> n == 0
  {
    if n < 10 then [DigitChar(n)] else NatToString(n / 10) + [DigitChar(n % 10)]
  }

  /** `String(i)` for an integer. */
  function IntToString(i: int): string {
    if i < 0 then "-" + NatToString(-i) else NatToString(i)
  }

  /** The value of a string of decimal digits. */
  function ParseDigits(s: string): nat
    requires forall c :: c in s ==> IsDigit(c)
  {
    if s == [] then 0 else 10 * ParseDigits(s[..|s| - 1]) + DigitValue(s[|s| - 1])
  }

  /** Reading the decimal text back gives the number. */
  lemma {:induction false} NatToStringRoundTrip(n: nat)
    ensures ParseDigits(NatToString(n)) == n
    decreases n
  {
    if n >= 10 {
      var r := NatToString(n);
      assert r[..|r| - 1] == NatToString(n / 10);
      NatToStringRoundTrip(n / 10);
    }
  }

  /** Distinct numbers have distinct decimal texts. */
  lemma NatToStringInjective(m: nat, n: nat)
    requires NatToString(m) == NatToString(n)
    ensures m == n
  {
    NatToStringRoundTrip(m);
    NatToStringRoundTrip(n);
  }

  // ---------------------------------------------------------------------------
  // join and split on one separator character
  // ---------------------------------------------------------------------------

  /** `parts.join(sep)`. */
  function Join(parts: seq<string>, sep: char): string {
    if |parts| == 0 then ""
    else if |parts| == 1 then parts[0]
    else parts[0] + [sep] + Join(parts[1..], sep)
  }

  /** The offset of the first `c` in `s`, or `|s|` when there is none. */
  function CharIndex(s: string, c: char): (r: nat)
    ensures r <= |s| && (r < |s| ==> s[r] == c)
    ensures forall j :: 0 <= j < r ==> s[j] != c
  {
    if s == [] || s[0] == c then 0 else 1 + CharIndex(s[1..], c)
  }

  /** `s.split(sep)` for a one-character separator. */
  function Split(s: string, sep: char): (r: seq<string>)
    decreases |s|
    ensures |r| >= 1
  {
    var i := CharIndex(s, sep);
    if i == |s| then [s] else [s[..i]] + Split(s[i + 1..], sep)
  }

  /** Splitting a join recovers the parts when none of them holds the separator. */
  lemma {:induction false} SplitJoin(parts: seq<string>, sep: char)
    requires |parts| >= 1
    requires forall k :: 0 <= k < |parts| ==> sep !in parts[k]
    ensures Split(Join(parts, sep), sep) == parts
  {
    var p0 := parts[0];
    if |parts| == 1 {
      assert CharIndex(p0, sep) == |p0|;
    } else {
      var s := Join(parts, sep);
      var rest := Join(parts[1..], sep);
      assert s == p0 + [sep] + rest;
      var i := CharIndex(s, sep);
      assert s[|p0|] == sep;
      assert forall j :: 0 <= j < |p0| ==> s[j] == p0[j];
      assert i == |p0|;
      assert s[..i] == p0;
      assert s[i + 1..] == rest;
      SplitJoin(parts[1..], sep);
      assert parts == [p0] + parts[1..];
    }
  }

  // ---------------------------------------------------------------------------
  // The `||` fallback on optional strings
  // ---------------------------------------------------------------------------

  /** A JavaScript value that is a non-empty string (null, undefined and "" are falsy). */
  predicate Truthy(o: Option<string>) {
    o.Some? && o.value != ""
  }

  /** `xs[0] || xs[1] || ... || last`: the first truthy operand, else `last`. */
  function Coalesce(xs: seq<Option<string>>, last: string): (r: string)
    ensures (forall k :: 0 <= k < |xs| ==> !Truthy(xs[k])) ==> r == last
    ensures forall k :: 0 <= k < |xs| && Truthy(xs[k]) && (forall j :: 0 <= j < k ==> !Truthy(xs[j]))
              ==> r == xs[k].value
  {
    if xs == [] then last
    else if Truthy(xs[0]) then xs[0].value
    else
      var r := Coalesce(xs[1..], last);
      assert forall k :: 1 <= k < |xs| ==> xs[k] == xs[1..][k - 1];
      r
  }
}
