/** The few Python string operations the bot relies on, over `string`
    (a sequence of Unicode scalar values, as a Python `str` is). */
module Text {
  import opened Wrappers

  /** Python truthiness of a value that is a string or None. */
  predicate Truthy(o: Option<string>) {
    o.Some? && o.value != ""
  }

  /** Python's `str.isspace()`: the characters `\s` matches in a `str` pattern
      and the ones `str.strip()` removes. */
  predicate IsSpace(c: char) {
    ('\t' <= c <= '\r') || ('\U{1c}' <= c <= '\U{1f}') || c == ' '
    || c == '\U{85}' || c == '\U{a0}' || c == '\U{1680}'
    || ('\U{2000}' <= c <= '\U{200a}') || c == '\U{2028}' || c == '\U{2029}'
    || c == '\U{202f}' || c == '\U{205f}' || c == '\U{3000}'
  }

  /** `str.lower()` on one character, restricted to the ASCII letters. */
  function LowerChar(c: char): (r: char)
    ensures 'A' <= c <= 'Z' ==> 'a' <= r <= 'z' && r as int - c as int == 32
    ensures !('A' <= c <= 'Z') ==> r == c
  {
    if 'A' <= c <= 'Z' then (c as int + 32) as char else c
  }

  /** `str.lower()` (ASCII letters only, see LowerChar). */
  function Lower(s: string): (r: string)
    ensures |r| == |s|
    ensures forall k :: 0 <= k < |s| ==> r[k] == LowerChar(s[k])
  {
    seq(|s|, k requires 0 <= k < |s| => LowerChar(s[k]))
  }

  /** Lowering twice is lowering once: `x.lower().lower() == x.lower()`. */
  lemma LowerIdempotent(s: string)
    ensures Lower(Lower(s)) == Lower(s)
  {
    assert forall k :: 0 <= k < |s| ==> LowerChar(LowerChar(s[k])) == LowerChar(s[k]);
  }

  /** `p in s` for strings: p occurs as a contiguous piece of s. */
  ghost predicate Occurs(p: string, s: string) {
    exists i :: 0 <= i <= |s| && p <= s[i..]
  }

  /** Substring test, `p in s`, by scanning s from the left. */
  function Contains(s: string, p: string): (b: bool)
    ensures b <==> Occurs(p, s)
    decreases |s|
  {
    if p <= s then
      assert s[0..] == s;
      true
    else if s == [] then
      false
    else
      assert forall i :: 1 <= i <= |s| ==> s[i..] == s[1..][i - 1..];
      assert Occurs(p, s[1..]) ==> Occurs(p, s) by {
        if Occurs(p, s[1..]) {
          var i :| 0 <= i <= |s[1..]| && p <= s[1..][i..];
          assert p <= s[i + 1..];
        }
      }
      Contains(s[1..], p)
  }

  /** Number of leading whitespace characters. */
  function LeadingSpace(s: string): (n: nat)
    ensures n <= |s|
    ensures forall k :: 0 <= k < n ==> IsSpace(s[k])
    ensures n < |s| ==> !IsSpace(s[n])
  {
    if |s| > 0 && IsSpace(s[0]) then 1 + LeadingSpace(s[1..]) else 0
  }

  /** Index where the trailing run of whitespace begins. */
  function TrailingSpaceStart(s: string): (n: nat)
    ensures n <= |s|
    ensures forall k :: n <= k < |s| ==> IsSpace(s[k])
    ensures n > 0 ==> !IsSpace(s[n - 1])
  {
    if |s| > 0 && IsSpace(s[|s| - 1]) then TrailingSpaceStart(s[..|s| - 1]) else |s|
  }

  /** `str.strip()`: drops the whitespace at both ends and keeps the middle. */
  function Strip(s: string): (r: string)
    ensures LeadingSpace(s) + |r| <= |s|
    ensures r == s[LeadingSpace(s)..LeadingSpace(s) + |r|]
    ensures r == [] <==> forall k :: 0 <= k < |s| ==> IsSpace(s[k])
    ensures r != [] ==> !IsSpace(r[0]) && !IsSpace(r[|r| - 1])
    ensures forall k :: 0 <= k < LeadingSpace(s) ==> IsSpace(s[k])
    ensures forall k :: LeadingSpace(s) + |r| <= k < |s| ==> IsSpace(s[k])
  {
    var lo := LeadingSpace(s);
    if lo == |s| then [] else s[lo..TrailingSpaceStart(s)]
  }

  /** Python's `str.find` for one character: the first index of c, or |s|. */
  function IndexOf(s: string, c: char): (i: nat)
    ensures i <= |s|
    ensures i < |s| ==> s[i] == c
    ensures forall k :: 0 <= k < i ==> s[k] != c
  {
    if s == [] || s[0] == c then 0 else 1 + IndexOf(s[1..], c)
  }

  /** `sep.join(parts)`. */
  function Join(parts: seq<string>, sep: string): string
  {
    if |parts| == 0 then ""
    else if |parts| == 1 then parts[0]
    else parts[0] + sep + Join(parts[1..], sep)
  }

  /** A join starts with the first part and ends with the last; with two or
      more parts a separator stands between them. */
  lemma {:induction false} JoinEnds(parts: seq<string>, sep: string)
    requires |parts| >= 1
    ensures parts[0] <= Join(parts, sep)
    ensures |parts[|parts| - 1]| <= |Join(parts, sep)|
    ensures Join(parts, sep)[|Join(parts, sep)| - |parts[|parts| - 1]|..] == parts[|parts| - 1]
    ensures |parts| >= 2 ==> |parts[0]| + |sep| + |parts[|parts| - 1]| <= |Join(parts, sep)|
    decreases |parts|
  {
    if |parts| >= 2 {
      var rest := parts[1..];
      JoinEnds(rest, sep);
      assert rest[|rest| - 1] == parts[|parts| - 1];
      assert Join(parts, sep) == (parts[0] + sep) + Join(rest, sep);
    }
  }

  function Min(a: nat, b: nat): nat { if a <= b then a else b }

  /** `s.split(sep, maxsplit)` for a one-character separator: cuts s at its
      first `maxsplit` separators, from the left; the last part keeps the rest. */
  function SplitN(s: string, sep: char, maxsplit: nat): (parts: seq<string>)
    ensures |parts| == Min(maxsplit, multiset(s)[sep]) + 1
    ensures Join(parts, [sep]) == s
    ensures forall k :: 0 <= k < |parts| - 1 ==> sep !in parts[k]
    ensures multiset(s)[sep] <= maxsplit ==> sep !in parts[|parts| - 1]
    decreases maxsplit
  {
    var i := IndexOf(s, sep);
    if i == |s| then
      assert multiset(s)[sep] == 0;
      [s]
    else if maxsplit == 0 then
      [s]
    else
      var rest := SplitN(s[i + 1..], sep, maxsplit - 1);
      CutAt(s, sep, i);
      JoinCons(s[..i], rest, [sep]);
      [s[..i]] + rest
  }

  /** Cutting s at its first separator, index i. */
  lemma CutAt(s: string, sep: char, i: nat)
    requires i < |s| && s[i] == sep
    requires forall k :: 0 <= k < i ==> s[k] != sep
    ensures s == s[..i] + [sep] + s[i + 1..]
    ensures sep !in s[..i]
    ensures multiset(s)[sep] == 1 + multiset(s[i + 1..])[sep]
  {
    assert s == s[..i] + [sep] + s[i + 1..];
    assert multiset(s) == multiset(s[..i]) + multiset([sep]) + multiset(s[i + 1..]);
    assert multiset(s[..i])[sep] == 0;
  }

  /** A prefix without c, followed by c, ends where c first occurs. */
  lemma FirstIndexAfter(s: string, c: char, a: string)
    requires a <= s && |a| < |s| && s[|a|] == c && c !in a
    ensures IndexOf(s, c) == |a|
  {
    assert forall k :: 0 <= k < |a| ==> s[k] == a[k];
  }

  /** A string cut at the first occurrence of c splits only one way. */
  lemma FirstCutUnique(a: string, b: string, a': string, b': string, c: char)
    requires a + [c] + b == a' + [c] + b'
    requires c !in a && c !in a'
    ensures a == a' && b == b'
  {
    var s := a + [c] + b;
    FirstIndexAfter(s, c, a);
    FirstIndexAfter(s, c, a');
    assert a == s[..|a|] && a' == s[..|a'|];
    assert b == s[|a| + 1..] && b' == s[|a'| + 1..];
  }

  lemma JoinCons(a: string, rest: seq<string>, sep: string)
    requires |rest| >= 1
    ensures Join([a] + rest, sep) == a + sep + Join(rest, sep)
  {
    assert ([a] + rest)[1..] == rest;
  }

  lemma JoinThree(parts: seq<string>, sep: string)
    requires |parts| == 3
    ensures Join(parts, sep) == parts[0] + sep + (parts[1] + sep + parts[2])
  {
    var tail := parts[1..];
    assert tail[1..] == [parts[2]];
    assert Join(tail, sep) == parts[1] + sep + parts[2];
  }

  /** `s.split(sep)` with no limit: every separator cuts. */
  function Split(s: string, sep: char): (parts: seq<string>)
    ensures |parts| == multiset(s)[sep] + 1
    ensures Join(parts, [sep]) == s
    ensures forall k :: 0 <= k < |parts| ==> sep !in parts[k]
  {
    var parts := SplitN(s, sep, multiset(s)[sep]);
    assert |parts| == multiset(s)[sep] + 1 && sep !in parts[|parts| - 1];
    parts
  }

  /** A string without separators is its own only part. */
  lemma NoSeparator(s: string, sep: char)
    requires sep !in s
    ensures Split(s, sep) == [s]
  {
    assert multiset(s)[sep] == 0;
  }

  /** Cutting a piece without separators off the front of a string. */
  lemma {:induction false} SplitCons(a: string, sep: char, b: string)
    requires sep !in a
    ensures Split(a + [sep] + b, sep) == [a] + Split(b, sep)
  {
    var s := a + [sep] + b;
    FirstIndexAfter(s, sep, a);
    CutAt(s, sep, |a|);
    assert s[..|a|] == a && s[|a| + 1..] == b;
    var m := multiset(s)[sep];
    assert m == 1 + multiset(b)[sep];
    assert SplitN(s, sep, m) == [a] + SplitN(b, sep, m - 1);
  }

  lemma SplitTwo(a: string, b: string, sep: char)
    requires sep !in a && sep !in b
    ensures Split(a + [sep] + b, sep) == [a, b]
  {
    SplitCons(a, sep, b);
    NoSeparator(b, sep);
  }

  lemma SplitThree(a: string, b: string, c: string, sep: char)
    requires sep !in a && sep !in b && sep !in c
    ensures Split(a + [sep] + (b + [sep] + c), sep) == [a, b, c]
  {
    SplitCons(a, sep, b + [sep] + c);
    SplitTwo(b, c, sep);
  }

  function DigitChar(d: nat): (c: char)
    requires d < 10
    ensures '0' <= c <= '9'
  {
    ('0' as int + d) as char
  }

  predicate IsDigits(s: string) {
    forall k :: 0 <= k < |s| ==> '0' <= s[k] <= '9'
  }

  /** The number a string of decimal digits denotes. */
  function DecimalValue(s: string): nat
    requires IsDigits(s)
  {
    if s == [] then 0
    else DecimalValue(s[..|s| - 1]) * 10 + (s[|s| - 1] as int - '0' as int)
  }

  /** `str(n)` for a non-negative int: decimal digits, no leading zero. */
  function DecimalString(n: nat): (s: string)
    ensures |s| >= 1 && IsDigits(s)
    ensures s[0] == '0' ==> n == 0 && s == "0"
  {
    if n < 10 then [DigitChar(n)] else DecimalString(n / 10) + [DigitChar(n % 10)]
  }

  /** Reading back what DecimalString wrote gives the number. */
  lemma {:induction false} DecimalRoundTrip(n: nat)
    ensures DecimalValue(DecimalString(n)) == n
  {
    var s := DecimalString(n);
    if n < 10 {
      assert s[..0] == [];
    } else {
      DecimalRoundTrip(n / 10);
      assert s[..|s| - 1] == DecimalString(n / 10);
    }
  }
}
