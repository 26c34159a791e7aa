/**
 * The pieces of Rust's `str` API that the two core files use, over
 * `string == seq<char>`: prefixes, `find`/`rfind`, `trim`,
 * `trim_start_matches`, `u64::from_str` and `BufRead::lines`.
 */
module Strings {
  import opened Wrappers

  predicate StartsWith(s: string, prefix: string) {
    |prefix| <= |s| && s[..|prefix|] == prefix
  }

  /** `s.trim_start_matches(p)`: strips every leading copy of `p`. */
  function TrimStartMatches(s: string, p: string): (r: string)
    decreases |s|
    ensures |r| <= |s| && r == s[|s| - |r|..]
    ensures p != [] ==> !StartsWith(r, p)
    ensures !StartsWith(s, p) ==> r == s
  {
    if p != [] && StartsWith(s, p) then TrimStartMatches(s[|p|..], p) else s
  }

  /** `p` written `k` times in a row. */
  function Repeat(p: string, k: nat): string {
    if k == 0 then [] else p + Repeat(p, k - 1)
  }

  /** One more copy in front is one more repetition. */
  lemma RepeatCons(p: string, k: nat, r: string)
    ensures p + (Repeat(p, k) + r) == Repeat(p, k + 1) + r
  {
    assert Repeat(p, k + 1) == p + Repeat(p, k);
  }

  /** A text that starts with `p` is `p` and a rest, and is trimmed as that rest is. */
  lemma TrimStep(s: string, p: string) returns (rest: string)
    requires p != [] && StartsWith(s, p)
    ensures |rest| < |s| && s == p + rest
    ensures TrimStartMatches(s, p) == TrimStartMatches(rest, p)
  {
    rest := s[|p|..];
    assert s == s[..|p|] + rest;
  }

  /** What `trim_start_matches` drops is a whole number of copies of the pattern. */
  lemma {:induction false} TrimStartMatchesCopies(s: string, p: string) returns (k: nat)
    decreases |s|
    ensures s == Repeat(p, k) + TrimStartMatches(s, p)
  {
    if p != [] && StartsWith(s, p) {
      var rest := TrimStep(s, p);
      var k' := TrimStartMatchesCopies(rest, p);
      RepeatCons(p, k', TrimStartMatches(rest, p));
      k := k' + 1;
    } else {
      k := 0;
    }
  }

  /** `s.find(c)`: the first index holding `c`. */
  function IndexOf(s: string, c: char): (r: Option<nat>)
    ensures r.None? <==> c !in s
    ensures r.Some? ==> r.value < |s| && s[r.value] == c && c !in s[..r.value]
  {
    if s == [] then None
    else if s[0] == c then Some(0)
    else match IndexOf(s[1..], c)
      case None => None
      case Some(i) => assert s[1..][..i] == s[1..i + 1]; Some(i + 1)
  }

  /** `s.rfind(c)`: the last index holding `c`. */
  function LastIndexOf(s: string, c: char): (r: Option<nat>)
    ensures r.None? <==> c !in s
    ensures r.Some? ==> r.value < |s| && s[r.value] == c
    ensures r.Some? ==> forall k :: r.value < k < |s| ==> s[k] != c
  {
    if s == [] then None
    else if s[|s| - 1] == c then Some(|s| - 1)
    else match LastIndexOf(s[..|s| - 1], c)
      case None => assert s == s[..|s| - 1] + [s[|s| - 1]]; None
      case Some(i) => Some(i)
  }

  lemma SplitAround(s: string, j: nat)
    requires j < |s|
    ensures s == s[..j] + [s[j]] + s[j + 1..]
  {
  }

  /** The first `c` in `a + [c] + b` is the one after `a` when `a` has none. */
  lemma IndexOfJoined(a: string, c: char, b: string)
    requires c !in a
    ensures IndexOf(a + [c] + b, c) == Some(|a|)
  {
    var s := a + [c] + b;
    assert s[|a|] == c;
    var i := IndexOf(s, c).value;
    assert forall k :: 0 <= k < i ==> s[k] != c by {
      forall k | 0 <= k < i ensures s[k] != c { assert s[k] == s[..i][k]; }
    }
    assert forall k :: 0 <= k < |a| ==> s[k] != c by {
      forall k | 0 <= k < |a| ensures s[k] != c { assert s[k] == a[k]; }
    }
  }

  /** The last `c` in `a + [c] + b` is the one after `a` when `b` has none. */
  lemma LastIndexOfJoined(a: string, c: char, b: string)
    requires c !in b
    ensures LastIndexOf(a + [c] + b, c) == Some(|a|)
  {
    var s := a + [c] + b;
    NoneAfter(a, c, b);
    var r := LastIndexOf(s, c);
    assert s[|a|] == c;
  }

  lemma NoneAfter(a: string, c: char, b: string)
    requires c !in b
    ensures forall k :: |a| < k < |a + [c] + b| ==> (a + [c] + b)[k] != c
  {
    var s := a + [c] + b;
    forall k | |a| < k < |s| ensures s[k] != c { assert s[k] == b[k - |a| - 1]; }
  }

  function BeforeFirst(s: string, c: char): (r: string)
    requires c in s
    ensures c !in r && StartsWith(s, r + [c])
  {
    s[..IndexOf(s, c).value]
  }

  function AfterFirst(s: string, c: char): (r: string)
    requires c in s
    ensures s == BeforeFirst(s, c) + [c] + r
  {
    s[IndexOf(s, c).value + 1..]
  }

  /** Splitting `a + [c] + b` at its first `c` gives back `a` and `b`. */
  lemma SplitFirstJoined(a: string, c: char, b: string)
    requires c !in a
    ensures c in a + [c] + b
    ensures BeforeFirst(a + [c] + b, c) == a && AfterFirst(a + [c] + b, c) == b
  {
    IndexOfJoined(a, c, b);
    var s := a + [c] + b;
    assert s[..|a|] == a && s[|a| + 1..] == b;
  }

  /** A split at a separator that the right part does not contain is unique. */
  lemma SplitLastUnique(x: string, y: string, x': string, y': string, c: char)
    requires c !in y && c !in y'
    requires x + [c] + y == x' + [c] + y'
    ensures x == x' && y == y'
  {
    var s := x + [c] + y;
    LastIndexOfJoined(x, c, y);
    LastIndexOfJoined(x', c, y');
    assert |x| == |x'|;
    assert s[..|x|] == x && s[..|x'|] == x';
    assert s[|x| + 1..] == y && s[|x'| + 1..] == y';
  }

  lemma DigitsExclude(s: string, c: char)
    requires AllDigits(s) && !IsDigit(c)
    ensures c !in s
  {
  }

  predicate OccursAt(s: string, pat: string, i: nat) {
    i + |pat| <= |s| && s[i..i + |pat|] == pat
  }

  /** `s.find(pat)` for a string pattern: the first occurrence of `pat`. */
  function IndexOfSub(s: string, pat: string, from: nat := 0): (r: Option<nat>)
    requires from <= |s|
    decreases |s| - from
    ensures r.Some? ==> from <= r.value && OccursAt(s, pat, r.value)
    ensures r.Some? ==> forall j :: from <= j < r.value ==> !OccursAt(s, pat, j)
    ensures r.None? ==> forall j :: from <= j ==> !OccursAt(s, pat, j)
  {
    if OccursAt(s, pat, from) then Some(from)
    else if from == |s| then None
    else IndexOfSub(s, pat, from + 1)
  }

  /** An occurrence with none before it is the one `find` reports. */
  lemma IndexOfSubFirst(s: string, pat: string, i: nat)
    requires OccursAt(s, pat, i) && forall j: nat :: j < i ==> !OccursAt(s, pat, j)
    ensures IndexOfSub(s, pat) == Some(i)
  {
    var r := IndexOfSub(s, pat);
    assert r.Some? && !(r.value < i) && !(i < r.value);
  }

  /** Rust's `char::is_whitespace`: the Unicode White_Space property. */
  predicate IsWhitespace(c: char) {
    ('\t' <= c <= '\r') || c == ' ' || c == '\U{0085}' || c == '\U{00A0}'
    || c == '\U{1680}' || ('\U{2000}' <= c <= '\U{200A}') || c == '\U{2028}'
    || c == '\U{2029}' || c == '\U{202F}' || c == '\U{205F}' || c == '\U{3000}'
  }

  function TrimStart(s: string): (r: string)
    ensures |r| <= |s| && r == s[|s| - |r|..]
    ensures r == [] || !IsWhitespace(r[0])
    ensures forall k :: 0 <= k < |s| - |r| ==> IsWhitespace(s[k])
  {
    if s != [] && IsWhitespace(s[0]) then TrimStart(s[1..]) else s
  }

  function TrimEnd(s: string): (r: string)
    ensures |r| <= |s| && r == s[..|r|]
    ensures r == [] || !IsWhitespace(r[|r| - 1])
    ensures forall k :: |r| <= k < |s| ==> IsWhitespace(s[k])
  {
    if s != [] && IsWhitespace(s[|s| - 1]) then TrimEnd(s[..|s| - 1]) else s
  }

  /** `s.trim()` */
  function Trim(s: string): (r: string)
    ensures exists i :: InfixAt(r, s, i)
    ensures r == [] || (!IsWhitespace(r[0]) && !IsWhitespace(r[|r| - 1]))
  {
    var t := TrimStart(s);
    var r := TrimEnd(t);
    InfixOfPrefixOfSuffix(s, |s| - |t|, |r|);
    r
  }

  predicate InfixAt(r: string, s: string, i: nat) {
    i + |r| <= |s| && s[i..i + |r|] == r
  }

  /** A prefix of a suffix is an infix. */
  lemma InfixOfPrefixOfSuffix(s: string, i: nat, n: nat)
    requires i + n <= |s|
    ensures InfixAt(s[i..][..n], s, i)
  {
    var r := s[i..][..n];
    assert |r| == n;
    forall k | 0 <= k < n ensures s[i..i + n][k] == r[k] {
      assert r[k] == s[i..][k] == s[i + k];
    }
  }

  predicate IsDigit(c: char) {
    '0' <= c <= '9'
  }

  predicate AllDigits(s: string) {
    forall k :: 0 <= k < |s| ==> IsDigit(s[k])
  }

  function DigitValue(c: char): nat
    requires IsDigit(c)
  {
    c as int - '0' as int
  }

  function DigitChar(d: nat): (c: char)
    requires d < 10
    ensures IsDigit(c) && DigitValue(c) == d
  {
    ('0' as int + d) as char
  }

  /** The value of a decimal digit string, most significant digit first. */
  function DigitsValue(s: string): nat
    requires AllDigits(s)
  {
    if s == [] then 0 else DigitsValue(s[..|s| - 1]) * 10 + DigitValue(s[|s| - 1])
  }

  const U64Limit: nat := 0x1_0000_0000_0000_0000

  /**
   * `s.parse::<u64>()`: an optional leading `+`, then at least one ASCII
   * digit and nothing else, with a value that fits in 64 bits.
   */
  function ParseU64(s: string): (r: Option<nat>)
    ensures r.Some? ==> r.value < U64Limit
    ensures r.Some? ==> s != [] && IsDigit(s[|s| - 1])
    ensures var d := if s != [] && s[0] == '+' then s[1..] else s;
      && (r.Some? <==> d != [] && AllDigits(d) && DigitsValue(d) < U64Limit)
      && (r.Some? ==> r.value == DigitsValue(d))
    ensures (forall k :: 0 <= k < |s| ==> !IsDigit(s[k])) ==> r.None?
  {
    var digits := if s != [] && s[0] == '+' then s[1..] else s;
    if digits != [] && AllDigits(digits) && DigitsValue(digits) < U64Limit
    then Some(DigitsValue(digits))
    else None
  }

  /** The decimal text of `n`, as `u64::to_string` writes it. */
  function DecimalString(n: nat): (r: string)
    ensures r != [] && AllDigits(r)
  {
    if n < 10 then [DigitChar(n)] else DecimalString(n / 10) + [DigitChar(n % 10)]
  }

  lemma {:induction false} DecimalStringValue(n: nat)
    ensures DigitsValue(DecimalString(n)) == n
  {
    if n >= 10 {
      DecimalStringValue(n / 10);
      var s := DecimalString(n);
      assert s[..|s| - 1] == DecimalString(n / 10);
    }
  }

  /** Every `u64` printed in decimal parses back to itself. */
  lemma ParseU64OfDecimal(n: nat)
    requires n < U64Limit
    ensures ParseU64(DecimalString(n)) == Some(n)
  {
    DecimalStringValue(n);
  }

  /** `BufRead::lines`: split on `\n`, dropping one `\r` before each `\n`. */
  function Lines(s: string): (r: seq<string>)
    decreases |s|
    ensures forall k :: 0 <= k < |r| ==> '\n' !in r[k]
  {
    if s == [] then []
    else match IndexOf(s, '\n')
      case None => [s]
      case Some(i) => [DropCarriageReturn(s[..i])] + Lines(s[i + 1..])
  }

  function DropCarriageReturn(line: string): (r: string)
    ensures r == line || r + ['\r'] == line
  {
    if line != [] && line[|line| - 1] == '\r' then line[..|line| - 1] else line
  }

  /** `parts.join(sep)` */
  function Join(parts: seq<string>, sep: string): string {
    if parts == [] then []
    else if |parts| == 1 then parts[0]
    else parts[0] + sep + Join(parts[1..], sep)
  }

  /** A joined text ends with the last part. */
  lemma {:induction false} JoinEndsWith(parts: seq<string>, sep: string)
    requires parts != []
    ensures var j := Join(parts, sep); var last := parts[|parts| - 1];
      |last| <= |j| && j[|j| - |last|..] == last
  {
    if |parts| > 1 {
      JoinEndsWith(parts[1..], sep);
      assert parts[1..][|parts[1..]| - 1] == parts[|parts| - 1];
    }
  }

  /** A character in neither the parts nor the separator is not in the joined text. */
  lemma {:induction false} JoinExcludes(parts: seq<string>, sep: string, c: char)
    requires c !in sep && forall k :: 0 <= k < |parts| ==> c !in parts[k]
    ensures c !in Join(parts, sep)
  {
    if |parts| > 1 {
      JoinExcludes(parts[1..], sep, c);
    }
  }

  /** Lines written out one per `\n` come back as the same lines. */
  lemma {:induction false} LinesOfJoin(ls: seq<string>)
    requires forall k :: 0 <= k < |ls| ==> '\n' !in ls[k]
    requires forall k :: 0 <= k < |ls| ==> ls[k] == [] || ls[k][|ls[k]| - 1] != '\r'
    requires ls != [] ==> ls[|ls| - 1] != []
    ensures Lines(Join(ls, "\n")) == ls
  {
    if |ls| == 1 {
      assert IndexOf(ls[0], '\n').None?;
    } else if |ls| > 1 {
      LinesOfJoin(ls[1..]);
      LinesCons(ls[0], Join(ls[1..], "\n"));
    }
  }

  /** The first line of `l + "\n" + rest` is `l`. */
  lemma LinesCons(l: string, rest: string)
    requires '\n' !in l && (l == [] || l[|l| - 1] != '\r')
    ensures Lines(l + "\n" + rest) == [l] + Lines(rest)
  {
    var s := l + "\n" + rest;
    IndexOfJoined(l, '\n', rest);
    assert s[..|l|] == l;
    assert s[|l| + 1..] == rest;
  }
}
