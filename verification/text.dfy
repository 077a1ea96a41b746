/**
 * The handful of Python (and JavaScript) string and sequence built-ins the core relies on:
 * slicing with integer bounds, strip/lower, substring test, whitespace split, split on a
 * separator with a split limit, join, and decimal integers.
 */
module Text {
  import opened Wrappers

  // ---------------- slicing ----------------

  /** One bound of Python's `s[i:j]`: a negative bound counts from the end, then it is clamped to `[0, n]`. */
  function ClampIndex(i: int, n: nat): (k: nat)
    ensures k <= n
    ensures 0 <= i <= n ==> k == i
    ensures i > n ==> k == n
    ensures i < 0 ==> k == if i + n < 0 then 0 else i + n
  {
    if i < 0 then (if i + n < 0 then 0 else i + n) else if i > n then n else i
  }

  /** Python's `s[i:j]` on a list or a string, for any integer bounds. */
  function Slice<T>(s: seq<T>, i: int, j: int): (r: seq<T>)
    ensures |r| <= |s|
    ensures 0 <= i <= j <= |s| ==> r == s[i..j]
    ensures |r| == Max(0, ClampIndex(j, |s|) - ClampIndex(i, |s|))
    ensures forall k :: 0 <= k < |r| ==> r[k] == s[ClampIndex(i, |s|) + k]
  {
    var a, b := ClampIndex(i, |s|), ClampIndex(j, |s|);
    if a < b then s[a..b] else []
  }

  /** `s[-n:]` for `n >= 1`: the last `n` elements, or all of `s` when it is shorter (`s[-0:]` is all of `s`). */
  lemma SliceLast<T>(s: seq<T>, n: int)
    requires n >= 1
    ensures Slice(s, -n, |s|) == s[|s| - Min(n, |s|)..]
  {
  }

  /** Python's `s[:n]`. */
  function Prefix<T>(s: seq<T>, n: int): (r: seq<T>)
    ensures 0 <= n ==> r == s[..if n < |s| then n else |s|]
    ensures n < 0 ==> r == s[..if |s| + n < 0 then 0 else |s| + n]
  {
    Slice(s, 0, n)
  }

  function Min(a: int, b: int): int { if a < b then a else b }

  function Max(a: int, b: int): int { if a < b then b else a }

  // ---------------- characters ----------------

  /**
   * The whitespace that `str.strip()`, `str.split()` and `String.prototype.trim` remove.
   * Only the ASCII members of the set are modelled.
   */
  predicate IsSpace(c: char)
  {
    c == ' ' || c == '\t' || c == '\n' || c == '\r' || c == '\U{B}' || c == '\U{C}'
  }

  predicate IsDigit(c: char) { '0' <= c <= '9' }

  /** `str.lower()` on one character, for the ASCII letters. */
  function LowerChar(c: char): (d: char)
    ensures !('A' <= d <= 'Z')
    ensures !('A' <= c <= 'Z') ==> d == c
  {
    if 'A' <= c <= 'Z' then (c as int - 'A' as int + 'a' as int) as char else c
  }

  /** `str.lower()`. */
  function Lower(s: string): (r: string)
    ensures |r| == |s|
    ensures forall i :: 0 <= i < |s| ==> r[i] == LowerChar(s[i])
    ensures forall i :: 0 <= i < |r| ==> !('A' <= r[i] <= 'Z')
  {
    seq(|s|, i requires 0 <= i < |s| => LowerChar(s[i]))
  }

  // ---------------- strip ----------------

  /** The number of whitespace characters `s` starts with. */
  function LeadingSpaces(s: string): (k: nat)
    ensures k <= |s|
    ensures forall i :: 0 <= i < k ==> IsSpace(s[i])
    ensures k < |s| ==> !IsSpace(s[k])
  {
    if s != [] && IsSpace(s[0]) then
      var k := LeadingSpaces(s[1..]);
      assert forall i :: 1 <= i < k + 1 ==> s[i] == s[1..][i - 1];
      k + 1
    else
      0
  }

  /** Where the whitespace `s` ends with begins. */
  function TrailingStart(s: string): (k: nat)
    ensures k <= |s|
    ensures forall i :: k <= i < |s| ==> IsSpace(s[i])
    ensures k > 0 ==> !IsSpace(s[k - 1])
  {
    if s != [] && IsSpace(s[|s| - 1]) then
      var k := TrailingStart(s[..|s| - 1]);
      assert forall i :: k <= i < |s| - 1 ==> s[i] == s[..|s| - 1][i];
      k
    else
      |s|
  }

  /** `s.lstrip()`: `s` without the whitespace it starts with. */
  function TrimStart(s: string): (r: string)
  {
    s[LeadingSpaces(s)..]
  }

  /** `s.rstrip()`: `s` without the whitespace it ends with. */
  function TrimEnd(s: string): (r: string)
  {
    s[..TrailingStart(s)]
  }

  /** `s.strip()`: empty exactly when `s` is all whitespace; otherwise it neither starts nor ends with whitespace. */
  function Trim(s: string): (r: string)
    ensures |r| <= |s|
    ensures r == [] <==> forall i :: 0 <= i < |s| ==> IsSpace(s[i])
    ensures r != [] ==> !IsSpace(r[0]) && !IsSpace(r[|r| - 1])
    ensures var k := LeadingSpaces(s);
      k + |r| <= |s| && r == s[k..k + |r|] &&
      (forall i :: 0 <= i < k ==> IsSpace(s[i])) &&
      (forall i :: k + |r| <= i < |s| ==> IsSpace(s[i]))
  {
    var t := TrimStart(s);
    assert forall i :: TrailingStart(t) <= i < |t| ==> t[i] == s[LeadingSpaces(s) + i];
    TrimEnd(t)
  }

  /** Stripping is idempotent: a value that neither starts nor ends with whitespace is its own strip. */
  lemma TrimTrimmed(t: string)
    requires t == [] || (!IsSpace(t[0]) && !IsSpace(t[|t| - 1]))
    ensures Trim(t) == t
  {
    assert TrimStart(t) == t;
  }

  /** `k` copies of `c`. */
  function Repeat(c: char, k: nat): (s: string)
    ensures |s| == k && forall i :: 0 <= i < k ==> s[i] == c
  {
    seq(k, _ => c)
  }

  /** `s.rstrip(c)` for one character `c`: the longest prefix of `s` that does not end with `c`. */
  function RStrip(s: string, c: char): (r: string)
    ensures |r| <= |s| && r == s[..|r|]
    ensures r == [] || r[|r| - 1] != c
    ensures forall i :: |r| <= i < |s| ==> s[i] == c
  {
    if s != [] && s[|s| - 1] == c then
      var r := RStrip(s[..|s| - 1], c);
      assert s[..|s| - 1][..|r|] == s[..|r|];
      r
    else
      s
  }

  /** Stripping `c` from a text that does not end in `c`, followed by copies of `c`, gives back the text. */
  lemma {:induction false} RStripAppended(u: string, c: char, k: nat)
    requires u == [] || u[|u| - 1] != c
    ensures RStrip(u + Repeat(c, k), c) == u
  {
    if k > 0 {
      var s := u + Repeat(c, k);
      assert s[..|s| - 1] == u + Repeat(c, k - 1);
      RStripAppended(u, c, k - 1);
    } else {
      assert u + Repeat(c, 0) == u;
    }
  }

  // ---------------- substring ----------------

  /** `k` occurs in `s` at position `i`. */
  ghost predicate OccursAt(k: string, s: string, i: int)
  {
    0 <= i && i + |k| <= |s| && s[i..i + |k|] == k
  }

  /** Python's `k in s` for strings. */
  function Contains(s: string, k: string): (r: bool)
    ensures r <==> exists i :: OccursAt(k, s, i)
    decreases |s|
  {
    if |s| < |k| then
      false
    else if s[..|k|] == k then
      assert OccursAt(k, s, 0);
      true
    else
      var r := Contains(s[1..], k);
      assert r ==> exists i :: OccursAt(k, s, i) by {
        if r {
          var i :| OccursAt(k, s[1..], i);
          assert s[1..][i..i + |k|] == s[i + 1..i + 1 + |k|];
          assert OccursAt(k, s, i + 1);
        }
      }
      assert (exists i :: OccursAt(k, s, i)) ==> r by {
        if exists i :: OccursAt(k, s, i) {
          var i :| OccursAt(k, s, i);
          assert i != 0;
          assert s[1..][i - 1..i - 1 + |k|] == s[i..i + |k|];
          assert OccursAt(k, s[1..], i - 1);
        }
      }
      r
  }

  /** `any(k in s for k in keys)`. */
  predicate ContainsAny(s: string, keys: seq<string>)
  {
    exists k :: k in keys && Contains(s, k)
  }

  // ---------------- split ----------------

  /** The length of the run of non-whitespace characters at the front of `t`. */
  function WordLength(t: string): (n: nat)
    ensures n <= |t|
    ensures forall i :: 0 <= i < n ==> !IsSpace(t[i])
    ensures n == |t| || IsSpace(t[n])
  {
    if t == [] || IsSpace(t[0]) then 0 else 1 + WordLength(t[1..])
  }

  /** A non-empty run of non-whitespace characters. */
  predicate IsWord(w: string)
  {
    w != [] && forall i :: 0 <= i < |w| ==> !IsSpace(w[i])
  }

  /** `s.split()` with no argument: the maximal runs of non-whitespace characters, in order. */
  function Words(s: string): (ws: seq<string>)
    ensures ws == [] <==> forall i :: 0 <= i < |s| ==> IsSpace(s[i])
    ensures forall w :: w in ws ==> IsWord(w)
    decreases |s|
  {
    var t := TrimStart(s);
    if t == [] then
      []
    else
      var n := WordLength(t);
      assert t[0] == s[|s| - |t|];
      [t[..n]] + Words(t[n..])
  }

  /** Leading whitespace does not change `split()`. */
  lemma WordsAfterSpace(t: string)
    requires t != [] && !IsSpace(t[0])
    ensures Words([' '] + t) == Words(t)
  {
    assert LeadingSpaces(t) == 0;
    assert ([' '] + t)[1..] == t;
    assert TrimStart([' '] + t) == t;
  }

  /** A word followed by anything that starts with whitespace (or nothing) is split off whole. */
  lemma WordsCons(w: string, rest: string)
    requires IsWord(w)
    requires rest == [] || IsSpace(rest[0])
    ensures Words(w + rest) == [w] + Words(rest)
  {
    var t := w + rest;
    assert TrimStart(t) == t;
    var n := WordLength(t);
    assert forall i :: 0 <= i < |w| ==> t[i] == w[i];
    assert |w| < |t| ==> t[|w|] == rest[0];
    assert n == |w|;
    assert t[..n] == w && t[n..] == rest;
  }

  /** `s.split()` undoes `" ".join(ws)` for words: it gives back exactly the words joined. */
  lemma {:induction false} WordsJoin(ws: seq<string>)
    requires forall w :: w in ws ==> IsWord(w)
    ensures Words(Join(" ", ws)) == ws
  {
    if |ws| == 1 {
      WordsCons(ws[0], []);
      assert ws[0] + [] == ws[0];
    } else if |ws| > 1 {
      var rest := Join(" ", ws[1..]);
      assert ws[1] in ws;
      JoinStartsWith(ws[1..]);
      WordsJoin(ws[1..]);
      WordsAfterSpace(rest);
      assert Join(" ", ws) == ws[0] + ([' '] + rest);
      WordsCons(ws[0], [' '] + rest);
    }
  }

  /** `" ".join(ws)` starts with the first character of the first word. */
  lemma JoinStartsWith(ws: seq<string>)
    requires ws != [] && ws[0] != []
    ensures Join(" ", ws) != [] && Join(" ", ws)[0] == ws[0][0]
  {
  }

  /** The first index of `c` in `s`, if any. */
  function IndexOf(s: string, c: char): (r: Option<nat>)
    ensures r.Some? ==> r.value < |s| && s[r.value] == c && c !in s[..r.value]
    ensures r.None? <==> c !in s
  {
    if s == [] then None
    else if s[0] == c then Some(0)
    else match IndexOf(s[1..], c)
      case None => None
      case Some(i) =>
        assert s[1..][..i] == s[1..i + 1];
        Some(i + 1)
  }

  /** `sep.join(parts)`. */
  function Join(sep: string, parts: seq<string>): string
  {
    if |parts| == 0 then ""
    else if |parts| == 1 then parts[0]
    else parts[0] + sep + Join(sep, parts[1..])
  }

  /** `s.split(c, n)`: split at the first `n` occurrences of `c`, left to right. */
  function SplitN(s: string, c: char, n: nat): (parts: seq<string>)
    ensures 1 <= |parts| <= n + 1
  {
    if n == 0 then
      [s]
    else
      match IndexOf(s, c)
      case None => [s]
      case Some(i) => [s[..i]] + SplitN(s[i + 1..], c, n - 1)
  }

  /** One step of `s.split(c, n)`: the part before the first separator, then the split of the rest. */
  lemma SplitNUnfold(s: string, c: char, n: nat, i: nat)
    requires n > 0 && IndexOf(s, c) == Some(i)
    ensures SplitN(s, c, n) == [s[..i]] + SplitN(s[i + 1..], c, n - 1)
  {
  }

  /** The first separator in `a + [c] + rest` is the one right after the separator-free `a`. */
  lemma {:induction false} IndexAfterField(a: string, c: char, rest: string)
    requires c !in a
    ensures IndexOf(a + [c] + rest, c) == Some(|a|)
  {
    var s := a + [c] + rest;
    if a != [] {
      assert a[0] in a;
      assert s[1..] == a[1..] + [c] + rest;
      assert forall x :: x in a[1..] ==> x in a;
      IndexAfterField(a[1..], c, rest);
    }
  }

  /** Splitting a string that starts with a separator-free field `a` then the separator. */
  lemma SplitNCons(a: string, c: char, rest: string, n: nat)
    requires c !in a
    ensures SplitN(a + [c] + rest, c, n + 1) == [a] + SplitN(rest, c, n)
  {
    var s := a + [c] + rest;
    IndexAfterField(a, c, rest);
    SplitNUnfold(s, c, n + 1, |a|);
    assert s[..|a|] == a;
    assert s[|a| + 1..] == rest;
  }

  /** Three separator-free fields joined by the separator split back into those fields. */
  lemma SplitThree(a: string, b: string, d: string, c: char)
    requires c !in a && c !in b && c !in d
    ensures SplitN(a + [c] + b + [c] + d, c, 2) == [a, b, d]
  {
    var tail := b + [c] + d;
    assert a + [c] + b + [c] + d == a + [c] + tail;
    SplitNCons(a, c, tail, 1);
    SplitNCons(b, c, d, 0);
  }

  /** Four separator-free fields joined by the separator split back into those fields. */
  lemma SplitFour(a: string, b: string, d: string, e: string, c: char)
    requires c !in a && c !in b && c !in d && c !in e
    ensures SplitN(a + [c] + b + [c] + d + [c] + e, c, 3) == [a, b, d, e]
  {
    var tail := b + [c] + d + [c] + e;
    assert a + [c] + b + [c] + d + [c] + e == a + [c] + tail;
    SplitNCons(a, c, tail, 2);
    SplitThree(b, d, e, c);
  }

  /** A string without the separator is not split. */
  lemma SplitNNoSeparator(s: string, c: char, n: nat)
    requires c !in s
    ensures SplitN(s, c, n) == [s]
  {
  }

  // ---------------- decimal integers ----------------

  function DigitChar(d: nat): (c: char)
    requires d < 10
    ensures IsDigit(c)
  {
    ('0' as int + d) as char
  }

  function DigitValue(c: char): nat
    requires IsDigit(c)
  {
    c as int - '0' as int
  }

  /** The decimal digits of `n`, most significant first, without leading zeros. */
  function NatToString(n: nat): (s: string)
    ensures |s| >= 1
    ensures forall i :: 0 <= i < |s| ==> IsDigit(s[i])
  {
    if n < 10 then [DigitChar(n)] else NatToString(n / 10) + [DigitChar(n % 10)]
  }

  /** Python's `"%d" % i` (and `str(i)`) for an integer. */
  function IntToString(i: int): (s: string)
    ensures s != [] && '.' !in s && '$' !in s
  {
    if i < 0 then "-" + NatToString(-i) else NatToString(i)
  }

  predicate AllDigits(s: string)
  {
    forall i :: 0 <= i < |s| ==> IsDigit(s[i])
  }

  /** The number denoted by a string of decimal digits. */
  function DigitsValue(s: string): nat
    requires AllDigits(s)
  {
    if s == [] then 0 else 10 * DigitsValue(s[..|s| - 1]) + DigitValue(s[|s| - 1])
  }

  /**
   * Python's `int(s)` for an optional sign followed by one or more ASCII digits;
   * `None` where `int` raises `ValueError`.
   */
  function ParseInt(s: string): (r: Option<int>)
    ensures s == [] ==> r.None?
    ensures AllDigits(s) && s != [] ==> r == Some(DigitsValue(s))
  {
    if s == [] then None
    else if s[0] == '-' || s[0] == '+' then
      var digits := s[1..];
      if digits != [] && AllDigits(digits) then
        var v: int := DigitsValue(digits);
        Some(if s[0] == '-' then 0 - v else v)
      else None
    else if AllDigits(s) then Some(DigitsValue(s))
    else None
  }

  lemma {:induction false} DigitsRoundTrip(n: nat)
    ensures DigitsValue(NatToString(n)) == n
  {
    if n >= 10 {
      DigitsRoundTrip(n / 10);
      var s := NatToString(n);
      assert s[..|s| - 1] == NatToString(n / 10);
    }
  }

  /** Reading back what `"%d"` printed gives the same integer. */
  lemma ParseIntRoundTrip(i: int)
    ensures ParseInt(IntToString(i)) == Some(i)
  {
    var s := IntToString(i);
    if i < 0 {
      var digits := NatToString(-i);
      DigitsRoundTrip(-i);
      assert s == "-" + digits;
      assert s[0] == '-' && s[1..] == digits;
      assert AllDigits(digits);
      assert ParseInt(s) == Some(0 - DigitsValue(digits));
    } else {
      DigitsRoundTrip(i);
      assert s == NatToString(i) && AllDigits(s);
    }
  }
}
