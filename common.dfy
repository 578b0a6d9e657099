/** Small value types and string helpers shared by the hooks and pages of the dice game frontend. */
module Common {

  datatype Option<T> = None | Some(value: T)

  datatype Result<T, E> = Ok(value: T) | Err(error: E)

  /** `a || b` on optional strings: JavaScript treats both `undefined` and `""` as falsy. */
  function OrElse(a: Option<string>, b: Option<string>): (r: Option<string>)
    ensures a.Some? && a.value != "" ==> r == a
    ensures (a.None? || a.value == "") ==> r == b
  {
    if a.Some? && a.value != "" then a else b
  }

  /** True when an optional string is truthy in JavaScript. */
  predicate Present(a: Option<string>) {
    a.Some? && a.value != ""
  }

  /** ASCII case folding of one character (addresses are hexadecimal text). */
  function LowerChar(c: char): (r: char)
    ensures !('A' <= r <= 'Z')
    ensures !('A' <= c <= 'Z') ==> r == c
  {
    if 'A' <= c <= 'Z' then (c as int + 32) as char else c
  }

  /** `s.toLowerCase()` restricted to ASCII. */
  function Lower(s: string): (r: string)
    ensures |r| == |s|
    ensures forall i :: 0 <= i < |s| ==> r[i] == LowerChar(s[i])
  {
    seq(|s|, i requires 0 <= i < |s| => LowerChar(s[i]))
  }

  /** `a.toLowerCase() === b.toLowerCase()`. */
  predicate SameAddress(a: string, b: string) {
    Lower(a) == Lower(b)
  }

  /** The decimal digit for `d`. */
  function Digit(d: nat): (c: char)
    requires d < 10
    ensures '0' <= c <= '9'
    ensures c as int - '0' as int == d
  {
    ('0' as int + d) as char
  }

  /** All characters of `s` are decimal digits. */
  predicate AllDigits(s: string) {
    forall i :: 0 <= i < |s| ==> '0' <= s[i] <= '9'
  }

  /** The number a string of decimal digits denotes, most significant digit first. */
  function DigitsValue(s: string): nat
    requires AllDigits(s)
  {
    if s == [] then 0 else DigitsValue(s[..|s| - 1]) * 10 + (s[|s| - 1] as int - '0' as int)
  }

  /** Decimal rendering of a natural number, as JavaScript's template strings render integers. */
  function NatToString(n: nat): (r: string)
    ensures |r| > 0
    ensures forall i :: 0 <= i < |r| ==> '0' <= r[i] <= '9'
    decreases n
  {
    if n < 10 then [Digit(n)] else NatToString(n / 10) + [Digit(n % 10)]
  }

  /** The rendering denotes `n` and has no leading zero, so it is the decimal text of `n`. */
  lemma {:induction false} NatToStringValue(n: nat)
    ensures AllDigits(NatToString(n)) && DigitsValue(NatToString(n)) == n
    ensures n > 0 ==> NatToString(n)[0] != '0'
    decreases n
  {
    var r := NatToString(n);
    if n >= 10 {
      NatToStringValue(n / 10);
      assert r[..|r| - 1] == NatToString(n / 10);
      assert r[0] == NatToString(n / 10)[0];
    }
  }

  /** Decimal rendering of an integer, with a leading minus sign when negative. */
  function IntToString(n: int): (r: string)
    ensures |r| > 0
    ensures n < 0 <==> r[0] == '-'
    ensures n < 0 ==> r[1..] == NatToString(-n)
  {
    if n < 0 then "-" + NatToString(-n) else NatToString(n)
  }

  /** The text of an integer reads back as its sign and magnitude, without leading zeros. */
  lemma IntToStringValue(n: int)
    ensures n >= 0 ==> AllDigits(IntToString(n)) && DigitsValue(IntToString(n)) == n
    ensures n < 0 ==> AllDigits(IntToString(n)[1..]) && DigitsValue(IntToString(n)[1..]) == -n
    ensures n != 0 && IntToString(n)[0] != '-' ==> IntToString(n)[0] != '0'
    ensures n < 0 ==> IntToString(n)[1] != '0'
  {
    if n < 0 {
      NatToStringValue(-n);
    } else {
      NatToStringValue(n);
    }
  }

  /** The first `n` elements of `s`, or all of `s` when it is shorter (JavaScript's `slice(0, n)`). */
  function Take<T>(s: seq<T>, n: nat): (r: seq<T>)
    ensures |r| == if |s| < n then |s| else n
    ensures r == s[..|r|]
  {
    if |s| <= n then s else s[..n]
  }

  /** `sub` occurs in `s` starting at index `i`. */
  predicate OccursAt(s: string, sub: string, i: int) {
    0 <= i <= |s| - |sub| && s[i..i + |sub|] == sub
  }

  /** JavaScript's `s.includes(sub)`. */
  predicate Contains(s: string, sub: string) {
    exists i :: 0 <= i <= |s| - |sub| && OccursAt(s, sub, i)
  }

  /** An occurrence in the head of a string is an occurrence in the whole string. */
  lemma OccursInPrefix(head: string, tail: string, sub: string, i: int)
    requires OccursAt(head, sub, i)
    ensures Contains(head + tail, sub)
  {
    assert (head + tail)[i..i + |sub|] == head[i..i + |sub|];
    assert OccursAt(head + tail, sub, i);
  }

  /** A string cannot contain `sub` when it lacks the first character of `sub`. */
  lemma NotContainedWithoutFirst(s: string, sub: string)
    requires |sub| > 0 && sub[0] !in s
    ensures !Contains(s, sub)
  {
    forall i | 0 <= i <= |s| - |sub| ensures !OccursAt(s, sub, i) {
      assert s[i] in s;
    }
  }

  /** If the first character of `sub` occurs exactly once in `s`, `sub` can only occur there. */
  lemma {:induction false} NotContainedAround(pre: string, post: string, sub: string)
    requires |sub| > 0 && sub[0] !in pre && sub[0] !in post
    requires |post| < |sub| - 1 || post[..|sub| - 1] != sub[1..]
    ensures !Contains(pre + [sub[0]] + post, sub)
  {
    var s := pre + [sub[0]] + post;
    forall i | 0 <= i <= |s| - |sub| ensures !OccursAt(s, sub, i) {
      if i < |pre| {
        assert s[i] == pre[i];
      } else if i > |pre| {
        assert s[i] == post[i - |pre| - 1];
      } else {
        assert s[i + 1..i + |sub|] == post[..|sub| - 1];
      }
    }
  }
}
