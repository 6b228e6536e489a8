/** String operations with the meaning JavaScript's String methods give them
    (`indexOf`, `substring`, `split`, `replace`, `toLowerCase`) and the decimal
    conversions the modelled code performs implicitly. */
module Text {

  /** p occurs in s starting at position i. */
  predicate OccursAt(s: string, p: string, i: int) {
    0 <= i && i + |p| <= |s| && s[i..i + |p|] == p
  }

  /** `s.indexOf(p)`: the first position at which p occurs in s, or -1. */
  function IndexOf(s: string, p: string): (r: int)
    ensures r == -1 || OccursAt(s, p, r)
    ensures forall i | 0 <= i && (r == -1 || i < r) :: !OccursAt(s, p, i)
  {
    IndexFrom(s, p, 0)
  }

  function IndexFrom(s: string, p: string, k: nat): (r: int)
    ensures r == -1 || (k <= r && OccursAt(s, p, r))
    ensures forall i | k <= i && (r == -1 || i < r) :: !OccursAt(s, p, i)
    decreases |s| - k
  {
    if k + |p| > |s| then -1
    else if s[k..k + |p|] == p then k
    else IndexFrom(s, p, k + 1)
  }

  /** `s.indexOf(p) == 0`, the prefix test the modelled code uses throughout. */
  lemma IndexOfZeroIsPrefix(s: string, p: string)
    ensures IndexOf(s, p) == 0 <==> p <= s
  {
    if p <= s {
      assert s[0..|p|] == p;
      assert OccursAt(s, p, 0);
    }
  }

  /** The first position of c in s; c must occur. */
  function CharIndex(s: string, c: char): (r: nat)
    requires c in s
    ensures r < |s| && s[r] == c && c !in s[..r]
  {
    if s[0] == c then 0
    else
      assert c in s[1..] by { var k :| 0 <= k < |s| && s[k] == c; assert s[1..][k - 1] == c; }
      var r := 1 + CharIndex(s[1..], c);
      assert s[..r] == [s[0]] + s[1..][..r - 1];
      r
  }

  /** `s.indexOf(c)` for one character is its first position, or -1. */
  lemma IndexOfChar(s: string, c: char)
    ensures c in s ==> IndexOf(s, [c]) == CharIndex(s, c)
    ensures c !in s ==> IndexOf(s, [c]) == -1
  {
    var r := IndexOf(s, [c]);
    if r != -1 {
      assert s[r] == s[r..r + 1][0] == c;
    }
    if c in s {
      var k := CharIndex(s, c);
      assert s[k..k + 1] == [c];
      assert OccursAt(s, [c], k);
    }
  }

  /** The part of s before the first c, or all of s when c does not occur:
      `if (s.indexOf(c) >= 0) s = s.substring(0, s.indexOf(c))`. */
  function BeforeChar(s: string, c: char): (r: string)
    ensures r <= s && c !in r
    ensures c in s ==> |r| < |s| && s[|r|] == c
    ensures c !in s ==> r == s
  {
    if c in s then s[..CharIndex(s, c)] else s
  }

  /** Joins non-empty lists of parts with c between consecutive parts. */
  function Join(parts: seq<string>, c: char): string
    requires |parts| >= 1
  {
    if |parts| == 1 then parts[0] else parts[0] + [c] + Join(parts[1..], c)
  }

  /** The first part of a split is what precedes the first separator. */
  lemma SplitFirst(s: string, c: char)
    ensures Split(s, c)[0] == BeforeChar(s, c)
  {
  }

  /** `s.split(c)` for a one-character separator: never empty, no part holds c,
      and joining the parts with c gives s back. */
  function Split(s: string, c: char): (parts: seq<string>)
    ensures |parts| >= 1
    ensures forall i | 0 <= i < |parts| :: c !in parts[i]
    decreases |s|
  {
    if c !in s then [s]
    else
      var i := CharIndex(s, c);
      [s[..i]] + Split(s[i + 1..], c)
  }

  /** Joining the parts of a split with the separator gives the string back. */
  lemma {:induction false} JoinSplit(s: string, c: char)
    ensures Join(Split(s, c), c) == s
    decreases |s|
  {
    if c in s {
      var i := CharIndex(s, c);
      JoinSplit(s[i + 1..], c);
      assert Split(s, c)[1..] == Split(s[i + 1..], c);
      assert s == s[..i] + [c] + s[i + 1..];
    }
  }

  /** Splitting a join of parts free of the separator gives the parts back. */
  lemma {:induction false} SplitJoin(parts: seq<string>, c: char)
    requires |parts| >= 1
    requires forall i | 0 <= i < |parts| :: c !in parts[i]
    ensures Split(Join(parts, c), c) == parts
  {
    if |parts| > 1 {
      var rest := Join(parts[1..], c);
      assert Join(parts, c) == parts[0] + [c] + rest;
      SplitAtFirst(parts[0], rest, c);
      SplitJoin(parts[1..], c);
      assert parts == [parts[0]] + parts[1..];
    }
  }

  /** A part free of c, then c, then the rest: the split takes the part off. */
  lemma SplitAtFirst(first: string, rest: string, c: char)
    requires c !in first
    ensures Split(first + [c] + rest, c) == [first] + Split(rest, c)
  {
    var s := first + [c] + rest;
    assert s[|first|] == c;
    var i := CharIndex(s, c);
    assert i == |first| by {
      assert forall j | 0 <= j < |first| :: s[j] == first[j];
      assert forall j | |first| < j <= |s| :: s[..j][|first|] == c;
    }
    assert s[..i] == first;
    assert s[i + 1..] == rest;
  }

  /** Joining two lists of parts joins their joins. */
  lemma {:induction false} JoinAppend(a: seq<string>, b: seq<string>, c: char)
    requires |a| >= 1 && |b| >= 1
    ensures Join(a + b, c) == Join(a, c) + [c] + Join(b, c)
  {
    if |a| > 1 {
      assert (a + b)[1..] == a[1..] + b;
      JoinAppend(a[1..], b, c);
    } else {
      assert (a + b)[1..] == b;
    }
  }

  /** Splitting at a separator splits the parts on either side of it. */
  lemma SplitAppend(x: string, y: string, c: char)
    ensures Split(x + [c] + y, c) == Split(x, c) + Split(y, c)
  {
    var ps := Split(x, c) + Split(y, c);
    JoinAppend(Split(x, c), Split(y, c), c);
    JoinSplit(x, c);
    JoinSplit(y, c);
    assert forall i | 0 <= i < |ps| :: c !in ps[i] by {
      forall i | 0 <= i < |ps| ensures c !in ps[i] {
        if i >= |Split(x, c)| { assert ps[i] == Split(y, c)[i - |Split(x, c)|]; }
      }
    }
    SplitJoin(ps, c);
  }

  function Clamp(x: int, n: nat): (r: nat)
    ensures r <= n
  {
    if x < 0 then 0 else if x > n then n else x
  }

  /** `s.substring(a, b)`: both ends clamped into [0, |s|], then swapped if
      out of order. */
  function Substring(s: string, a: int, b: int): (r: string)
    ensures |r| <= |s|
    ensures 0 <= a <= b <= |s| ==> r == s[a..b]
    ensures a <= b ==> r == s[Clamp(a, |s|)..Clamp(b, |s|)]
    ensures b < a ==> r == s[Clamp(b, |s|)..Clamp(a, |s|)]
  {
    var x, y := Clamp(a, |s|), Clamp(b, |s|);
    if x <= y then s[x..y] else s[y..x]
  }

  /** The replacement text `String.prototype.replace` inserts for a string
      pattern (the GetSubstitution operation of ECMA-262): `$$` is
      `$`, `$&` the matched text, `` $` `` the text before the match and `$'`
      the text after it; with no capture groups every other `$` stands for
      itself. */
  function Expand(rep: string, matched: string, before: string, after: string): (r: string)
    ensures '$' !in rep ==> r == rep
  {
    if rep == [] then []
    else if rep[0] == '$' && |rep| >= 2 && rep[1] in "$&`'" then
      var sub := if rep[1] == '$' then "$" else if rep[1] == '&' then matched else if rep[1] == '`' then before else after;
      sub + Expand(rep[2..], matched, before, after)
    else
      var rest := Expand(rep[1..], matched, before, after);
      assert '$' !in rep ==> '$' !in rep[1..];
      [rep[0]] + rest
  }

  /** `s.replace(pat, rep)` with a string pattern: only the first occurrence is
      replaced, by the expansion of rep, and s is unchanged when pat does not
      occur. */
  function ReplaceFirst(s: string, pat: string, rep: string): (r: string)
    ensures IndexOf(s, pat) == -1 ==> r == s
    ensures IndexOf(s, pat) >= 0 ==>
              var i := IndexOf(s, pat);
              var e := Expand(rep, pat, s[..i], s[i + |pat|..]);
              |r| == |s| - |pat| + |e| &&
              r[..i] == s[..i] && r[i..i + |e|] == e && r[i + |e|..] == s[i + |pat|..]
  {
    var i := IndexOf(s, pat);
    if i == -1 then s
    else
      var e := Expand(rep, pat, s[..i], s[i + |pat|..]);
      var r := s[..i] + e + s[i + |pat|..];
      assert r[..i] == s[..i] && r[i..i + |e|] == e && r[i + |e|..] == s[i + |pat|..];
      r
  }

  /** A replacement without `$` is inserted as it is. */
  lemma ReplaceFirstLiteral(s: string, pat: string, rep: string)
    requires '$' !in rep && IndexOf(s, pat) >= 0
    ensures ReplaceFirst(s, pat, rep) == s[..IndexOf(s, pat)] + rep + s[IndexOf(s, pat) + |pat|..]
  {
  }

  /** `$&` puts the matched text back, so replacing a pattern by `$&` changes
      nothing. */
  lemma ReplaceByMatchKeeps(s: string, pat: string)
    requires IndexOf(s, pat) >= 0
    ensures ReplaceFirst(s, pat, "$&") == s
  {
    var i := IndexOf(s, pat);
    assert Expand("$&", pat, s[..i], s[i + |pat|..]) == pat + Expand([], pat, s[..i], s[i + |pat|..]);
    assert s[..i] + pat + s[i + |pat|..] == s;
  }

  /** `toLowerCase` on the ASCII letters; other characters are kept. */
  function LowerChar(c: char): char {
    if 'A' <= c <= 'Z' then (c as int - 'A' as int + 'a' as int) as char else c
  }

  function Lower(s: string): (r: string)
    ensures |r| == |s|
    ensures forall i | 0 <= i < |s| :: r[i] == LowerChar(s[i])
  {
    seq(|s|, i requires 0 <= i < |s| => LowerChar(s[i]))
  }

  /** `s.indexOf(p) == 0`: s starts with p. */
  predicate StartsWith(s: string, p: string)
    ensures StartsWith(s, p) <==> p <= s
  {
    IndexOfZeroIsPrefix(s, p);
    IndexOf(s, p) == 0
  }

  /** `s.indexOf(p) !== -1`. */
  predicate Contains(s: string, p: string) {
    IndexOf(s, p) != -1
  }

  predicate IsDigit(c: char) {
    '0' <= c <= '9'
  }

  predicate AllDigits(s: string) {
    forall i | 0 <= i < |s| :: IsDigit(s[i])
  }

  function DigitChar(d: nat): (c: char)
    requires d < 10
    ensures IsDigit(c)
  {
    ('0' as int + d) as char
  }

  /** The decimal value of a string of digits, as `parseInt(s, 10)` reads it. */
  function DigitsValue(s: string): nat
    requires AllDigits(s)
  {
    if s == [] then 0
    else DigitsValue(s[..|s| - 1]) * 10 + (s[|s| - 1] as int - '0' as int)
  }

  /** The decimal form of a natural number, without leading zeros. */
  function NatToString(n: nat): (r: string)
    ensures |r| >= 1 && AllDigits(r)
    ensures DigitsValue(r) == n
    ensures |r| > 1 ==> r[0] != '0'
  {
    if n < 10 then [DigitChar(n)]
    else
      var r := NatToString(n / 10) + [DigitChar(n % 10)];
      assert r[..|r| - 1] == NatToString(n / 10);
      r
  }

  /** The decimal form of an integer, as JavaScript prints a whole number. */
  function IntToString(n: int): string {
    if n < 0 then "-" + NatToString(-n) else NatToString(n)
  }

  /** The white space `parseInt` skips before the number. */
  predicate IsSpace(c: char) {
    || c as int in {9, 10, 11, 12, 13, 32, 160, 0x1680, 0x202F, 0x205F, 0x3000, 0x2028, 0x2029, 0xFEFF}
    || 0x2000 <= c as int <= 0x200A
  }

  function TrimStart(s: string): (r: string)
    ensures r <= s || (exists k | 0 <= k <= |s| :: r == s[k..])
    ensures r == [] || !IsSpace(r[0])
  {
    if s != [] && IsSpace(s[0]) then
      var r := TrimStart(s[1..]);
      assert r == [] || !IsSpace(r[0]);
      r
    else s
  }

  /** The longest prefix of s that consists of decimal digits. */
  function DigitPrefix(s: string): (r: string)
    ensures r <= s && AllDigits(r)
    ensures r == s || !IsDigit(s[|r|])
  {
    if s == [] || !IsDigit(s[0]) then []
    else
      var r := [s[0]] + DigitPrefix(s[1..]);
      assert s == [s[0]] + s[1..];
      r
  }

  /** A string of digits is its own longest digit prefix. */
  lemma {:induction false} DigitPrefixOfDigits(s: string)
    requires AllDigits(s)
    ensures DigitPrefix(s) == s
  {
    if s != [] {
      DigitPrefixOfDigits(s[1..]);
    }
  }
}
