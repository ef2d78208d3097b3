/**
 * The few pieces of Python's `str` behaviour the core relies on:
 * `"".join`, `"=" * n`, `str.lower`, `str.replace` of one character,
 * `str(n)` for a natural number and `os.path.join` of two parts.
 */
module Strings {

  /** `"".join(parts)`. */
  function Concat(parts: seq<string>): (r: string)
    ensures |parts| == 1 ==> r == parts[0]
  {
    if parts == [] then "" else parts[0] + Concat(parts[1..])
  }

  lemma {:induction false} ConcatAppend(a: seq<string>, b: seq<string>)
    ensures Concat(a + b) == Concat(a) + Concat(b)
  {
    if a == [] {
      assert a + b == b;
    } else {
      assert (a + b)[1..] == a[1..] + b;
      ConcatAppend(a[1..], b);
    }
  }

  /** `c * n` for a one-character string `c`. */
  function Repeat(c: char, n: nat): (r: string)
    ensures |r| == n
    ensures forall i :: 0 <= i < n ==> r[i] == c
  {
    seq(n, _ => c)
  }

  /** `ch.lower()` on the ASCII letters; every other character is left as it is. */
  function LowerChar(ch: char): char {
    if 'A' <= ch <= 'Z' then (ch as int + 32) as char else ch
  }

  function Lower(s: string): (r: string)
    ensures |r| == |s|
    ensures forall i :: 0 <= i < |s| ==> r[i] == LowerChar(s[i])
  {
    if s == [] then "" else [LowerChar(s[0])] + Lower(s[1..])
  }

  /** `s.replace(from, to)` where both are single characters. */
  function ReplaceChar(s: string, from: char, to: char): (r: string)
    ensures |r| == |s|
    ensures forall i :: 0 <= i < |s| ==> r[i] == (if s[i] == from then to else s[i])
  {
    if s == [] then "" else [if s[0] == from then to else s[0]] + ReplaceChar(s[1..], from, to)
  }

  function DigitChar(d: nat): char
    requires d < 10
  {
    "0123456789"[d]
  }

  /** The value of one decimal digit character. */
  function DigitValue(ch: char): nat {
    if '0' <= ch <= '9' then ch as nat - '0' as nat else 0
  }

  /** The number a string of decimal digits spells, most significant digit first. */
  function DigitsValue(s: string): nat {
    if s == [] then 0 else DigitsValue(s[..|s| - 1]) * 10 + DigitValue(s[|s| - 1])
  }

  lemma DigitCharValue(d: nat)
    requires d < 10
    ensures '0' <= DigitChar(d) <= '9'
    ensures DigitValue(DigitChar(d)) == d
    ensures DigitChar(d) == '0' <==> d == 0
  {
    if d == 0 {} else if d == 1 {} else if d == 2 {} else if d == 3 {} else if d == 4 {}
    else if d == 5 {} else if d == 6 {} else if d == 7 {} else if d == 8 {} else {}
  }

  /**
   * `str(n)` for a natural number: decimal digits that spell `n`, with no
   * leading zero unless `n` is zero itself.
   */
  function NatToString(n: nat): (r: string)
    ensures |r| >= 1
    ensures forall i :: 0 <= i < |r| ==> '0' <= r[i] <= '9'
    ensures DigitsValue(r) == n
    ensures r[0] == '0' ==> r == "0" && n == 0
  {
    DigitCharValue(n % 10);
    if n < 10 then [DigitChar(n)]
    else
      var prefix := NatToString(n / 10);
      assert (prefix + [DigitChar(n % 10)])[..|prefix|] == prefix;
      prefix + [DigitChar(n % 10)]
  }

  /** `os.path.join(dir, name)` on POSIX for a relative `name`. */
  function PathJoin(dir: string, name: string): (r: string)
    ensures |r| == |dir| + |name| || |r| == |dir| + 1 + |name|
    ensures r[..|dir|] == dir && r[|r| - |name|..] == name
    ensures |r| == |dir| + 1 + |name| <==> dir != [] && dir[|dir| - 1] != '/'
    ensures |r| == |dir| + 1 + |name| ==> r[|dir|] == '/'
  {
    if dir == [] || dir[|dir| - 1] == '/' then dir + name else dir + "/" + name
  }
}
