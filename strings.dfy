/**
 * The string operations of Python's `str` that the engine relies on, written out
 * over `seq<char>`: lowercasing (ASCII letters only), substring search, `count`,
 * `replace`, `join`, `split`, `strip`, `capitalize`, and decimal rendering of
 * naturals (what an f-string does with an `int`).
 */
module Strings {

  /** `str.isascii`. */
  predicate IsAscii(s: string) {
    forall i :: 0 <= i < |s| ==> s[i] as int < 128
  }

  function LowerChar(c: char): char {
    if 'A' <= c <= 'Z' then (c as int + 32) as char else c
  }

  function UpperChar(c: char): char {
    if 'a' <= c <= 'z' then (c as int - 32) as char else c
  }

  /** `s.lower()` on ASCII letters; every other character is kept. */
  function Lower(s: string): (r: string)
    ensures |r| == |s|
  {
    seq(|s|, i requires 0 <= i < |s| => LowerChar(s[i]))
  }

  predicate IsLowered(s: string) {
    forall i :: 0 <= i < |s| ==> !('A' <= s[i] <= 'Z')
  }

  lemma LowerIsLowered(s: string)
    ensures IsLowered(Lower(s))
  {
  }

  lemma LowerOfLowered(s: string)
    requires IsLowered(s)
    ensures Lower(s) == s
  {
  }

  lemma LowerConcat(a: string, b: string)
    ensures Lower(a + b) == Lower(a) + Lower(b)
  {
  }

  lemma LowerSlice(s: string, i: int, j: int)
    requires 0 <= i <= j <= |s|
    ensures Lower(s[i..j]) == Lower(s)[i..j]
  {
  }

  predicate StartsWith(s: string, prefix: string) {
    |prefix| <= |s| && s[..|prefix|] == prefix
  }

  predicate EndsWith(s: string, suffix: string) {
    |suffix| <= |s| && s[|s| - |suffix|..] == suffix
  }

  /** `sub` occurs in `s` starting at index `i`. */
  predicate OccursAt(s: string, sub: string, i: int) {
    0 <= i && i + |sub| <= |s| && s[i..i + |sub|] == sub
  }

  /** Python's `sub in s`. */
  predicate Contains(s: string, sub: string) {
    exists i :: 0 <= i <= |s| - |sub| && OccursAt(s, sub, i)
  }

  /** Python's `any(p in s for p in table)`. */
  predicate ContainsAny(s: string, table: seq<string>) {
    exists k :: 0 <= k < |table| && Contains(s, table[k])
  }

  /** Python's `any(s.endswith(p) for p in table)`. */
  predicate EndsWithAny(s: string, table: seq<string>) {
    exists k :: 0 <= k < |table| && EndsWith(s, table[k])
  }

  // ----------------------------------------------------------------- count

  /** Non-overlapping occurrences of `sub` in `s[i..]`, scanning left to right. */
  function CountFrom(s: string, sub: string, i: nat): nat
    requires i <= |s|
    decreases |s| - i
  {
    if |sub| == 0 then |s| - i + 1
    else if i + |sub| > |s| then 0
    else if OccursAt(s, sub, i) then 1 + CountFrom(s, sub, i + |sub|)
    else CountFrom(s, sub, i + 1)
  }

  /** Python's `s.count(sub)`. */
  function Count(s: string, sub: string): nat {
    CountFrom(s, sub, 0)
  }

  lemma {:induction false} CountFromPositive(s: string, sub: string, i: nat)
    requires i <= |s| && |sub| > 0
    ensures CountFrom(s, sub, i) > 0 <==> exists j :: i <= j <= |s| - |sub| && OccursAt(s, sub, j)
    decreases |s| - i
  {
    if i + |sub| > |s| {
    } else if OccursAt(s, sub, i) {
    } else {
      CountFromPositive(s, sub, i + 1);
      if exists j :: i <= j <= |s| - |sub| && OccursAt(s, sub, j) {
        var j :| i <= j <= |s| - |sub| && OccursAt(s, sub, j);
        assert j != i;
      }
    }
  }

  /** `s.count(sub)` is positive exactly when `sub in s`. */
  lemma CountPositiveIffContains(s: string, sub: string)
    ensures Count(s, sub) > 0 <==> Contains(s, sub)
  {
    if |sub| == 0 {
      assert OccursAt(s, sub, 0);
    } else {
      CountFromPositive(s, sub, 0);
    }
  }

  // --------------------------------------------------------------- replace

  function ReplaceFrom(s: string, target: string, repl: string, i: nat): string
    requires |target| > 0 && i <= |s|
    decreases |s| - i
  {
    if i + |target| > |s| then s[i..]
    else if OccursAt(s, target, i) then repl + ReplaceFrom(s, target, repl, i + |target|)
    else [s[i]] + ReplaceFrom(s, target, repl, i + 1)
  }

  /** `s.replace('', repl)`: `repl` before every character and at the end. */
  function InsertEverywhere(s: string, repl: string): string {
    if s == [] then repl else repl + [s[0]] + InsertEverywhere(s[1..], repl)
  }

  /** Python's `s.replace(target, repl)`. */
  function Replace(s: string, target: string, repl: string): string {
    if target == [] then InsertEverywhere(s, repl) else ReplaceFrom(s, target, repl, 0)
  }

  lemma {:induction false} ReplaceFromAbsent(s: string, target: string, repl: string, i: nat)
    requires |target| > 0 && i <= |s|
    requires forall j :: i <= j <= |s| - |target| ==> !OccursAt(s, target, j)
    ensures ReplaceFrom(s, target, repl, i) == s[i..]
    decreases |s| - i
  {
    if i + |target| <= |s| {
      ReplaceFromAbsent(s, target, repl, i + 1);
      assert s[i..] == [s[i]] + s[i + 1..];
    }
  }

  /** Replacing a non-empty string that does not occur changes nothing. */
  lemma ReplaceAbsent(s: string, target: string, repl: string)
    requires |target| > 0 && !Contains(s, target)
    ensures Replace(s, target, repl) == s
  {
    ReplaceFromAbsent(s, target, repl, 0);
  }

  // ------------------------------------------------------ join, split, strip

  /** Python's `sep.join(parts)`. */
  function Join(parts: seq<string>, sep: string): string
    decreases |parts|
  {
    if |parts| == 0 then ""
    else if |parts| == 1 then parts[0]
    else parts[0] + sep + Join(parts[1..], sep)
  }

  /** Python's `s.split(c)` for a one-character separator. */
  function Split(s: string, c: char): (parts: seq<string>)
    ensures |parts| >= 1
    decreases |s|
  {
    if s == [] then [""]
    else
      var rest := Split(s[1..], c);
      if s[0] == c then [""] + rest else [[s[0]] + rest[0]] + rest[1..]
  }

  lemma {:induction false} SplitFree(a: string, c: char)
    requires c !in a
    ensures Split(a, c) == [a]
    decreases |a|
  {
    if a != [] {
      SplitFree(a[1..], c);
      assert [a[0]] + a[1..] == a;
    }
  }

  lemma {:induction false} SplitAtSeparator(a: string, c: char, b: string)
    requires c !in a
    ensures Split(a + [c] + b, c) == [a] + Split(b, c)
    decreases |a|
  {
    if a == [] {
      assert a + [c] + b == [c] + b;
      assert ([c] + b)[1..] == b;
    } else {
      SplitAtSeparator(a[1..], c, b);
      assert (a + [c] + b)[1..] == a[1..] + [c] + b;
      assert [a[0]] + a[1..] == a;
    }
  }

  /** Joining with a character none of the parts contains, then splitting on it, gives the parts back. */
  lemma {:induction false} SplitJoin(parts: seq<string>, c: char)
    requires |parts| >= 1
    requires forall k :: 0 <= k < |parts| ==> c !in parts[k]
    ensures Split(Join(parts, [c]), c) == parts
    decreases |parts|
  {
    if |parts| == 1 {
      SplitFree(parts[0], c);
    } else {
      SplitJoin(parts[1..], c);
      SplitAtSeparator(parts[0], c, Join(parts[1..], [c]));
      assert parts == [parts[0]] + parts[1..];
    }
  }

  /** The characters Python's `str.strip()` removes, restricted to ASCII. */
  predicate IsSpace(ch: char) {
    ch == ' ' || 9 <= ch as int <= 13 || 0x1c <= ch as int <= 0x1f
  }

  function StripLeft(s: string): string
    decreases |s|
  {
    if s != [] && IsSpace(s[0]) then StripLeft(s[1..]) else s
  }

  function StripRight(s: string): string
    decreases |s|
  {
    if s != [] && IsSpace(s[|s| - 1]) then StripRight(s[..|s| - 1]) else s
  }

  /** Python's `s.strip()`. */
  function Strip(s: string): string {
    StripRight(StripLeft(s))
  }

  /** A string with no surrounding white space is its own strip. */
  predicate IsStripped(s: string) {
    s == [] || (!IsSpace(s[0]) && !IsSpace(s[|s| - 1]))
  }

  /** A string with no surrounding white space is left alone by `strip`. */
  lemma StripStripped(s: string)
    requires IsStripped(s)
    ensures Strip(s) == s
  {
    assert StripLeft(s) == s;
  }

  /** A string lacking one of the characters of `sub` does not contain `sub`. */
  lemma AbsentCharNotContained(s: string, sub: string, c: char)
    requires c in sub && c !in s
    ensures !Contains(s, sub)
  {
    forall i | 0 <= i <= |s| - |sub|
      ensures !OccursAt(s, sub, i)
    {
      var j :| 0 <= j < |sub| && sub[j] == c;
      assert i + |sub| <= |s| ==> s[i..i + |sub|][j] == s[i + j];
    }
  }

  /** Python's `s.capitalize()` on ASCII: first character upper, the rest lower. */
  function Capitalize(s: string): string {
    if s == [] then [] else [UpperChar(s[0])] + Lower(s[1..])
  }

  // ------------------------------------------------------------ rendering

  function DigitChar(d: nat): char
    requires d < 10
  {
    ('0' as int + d) as char
  }

  /** The decimal digits of `n`, as `str(n)` prints them. */
  function NatToString(n: nat): string
    decreases n
  {
    if n < 10 then [DigitChar(n)] else NatToString(n / 10) + [DigitChar(n % 10)]
  }
}
