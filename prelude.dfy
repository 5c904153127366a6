/** Shared value types of the model: an Option, the fixed-width integers the
    program uses, and the few string tests its code relies on. */
module Prelude {

  datatype Option<+T> = None | Some(value: T) {
    function GetOr(default: T): T {
      match this
      case Some(v) => v
      case None => default
    }
  }

  /** One byte of a network chunk or of a downloaded file. */
  newtype Byte = x: int | 0 <= x < 256

  /** Rust's i32 (the return code of an executed program). */
  type Int32 = x: int | -0x8000_0000 <= x < 0x8000_0000

  const USIZE_MAX: int := 0xFFFF_FFFF_FFFF_FFFF

  /** Rust's usize on a 64-bit target. */
  type Usize = n: nat | n <= USIZE_MAX

  /** `a.saturating_sub(b)` on usize. */
  function SaturatingSub(a: Usize, b: Usize): (r: Usize)
    ensures r <= a
    ensures r == 0 <==> a <= b
    ensures a >= b ==> r + b == a
  {
    if a >= b then a - b else 0
  }

  /** `a.saturating_add(b)` on usize. */
  function SaturatingAdd(a: Usize, b: Usize): (r: Usize)
    ensures a <= r
    ensures r == USIZE_MAX || r == a + b
    ensures a + b <= USIZE_MAX ==> r == a + b
  {
    if a + b <= USIZE_MAX then a + b else USIZE_MAX
  }

  /** The index of the first `c` in `s`, or |s| when there is none. */
  function IndexOf(s: string, c: char): (i: nat)
    ensures i <= |s| && (i < |s| ==> s[i] == c)
    ensures forall j | 0 <= j < i :: s[j] != c
  {
    if s == [] then 0 else if s[0] == c then 0 else 1 + IndexOf(s[1..], c)
  }

  /** `s.contains(sub)`: `sub` occurs in `s` at some position. */
  predicate Contains(s: string, sub: string)
    decreases |s|
  {
    sub <= s || (|s| > 0 && Contains(s[1..], sub))
  }

  lemma {:induction false} ContainsAt(s: string, sub: string, i: nat)
    requires i + |sub| <= |s| && s[i..i + |sub|] == sub
    ensures Contains(s, sub)
    decreases i
  {
    if i == 0 {
      assert sub <= s;
    } else {
      assert s[1..][i - 1..i - 1 + |sub|] == s[i..i + |sub|];
      ContainsAt(s[1..], sub, i - 1);
    }
  }

  /** The number a string of decimal digits denotes. */
  function DigitsValue(s: string): int {
    if s == [] then 0 else DigitsValue(s[..|s| - 1]) * 10 + (s[|s| - 1] as int - '0' as int)
  }

  /** The decimal digits of a natural number, as `format!("{}", n)` prints it. */
  function DecimalString(n: nat): (r: string)
    ensures |r| > 0
    ensures forall i :: 0 <= i < |r| ==> '0' <= r[i] <= '9'
    ensures DigitsValue(r) == n
    ensures |r| > 1 ==> r[0] != '0'
    decreases n
  {
    if n < 10 then [DigitChar(n)]
    else
      var r := DecimalString(n / 10) + [DigitChar(n % 10)];
      assert r[..|r| - 1] == DecimalString(n / 10);
      r
  }

  /** A number from 100 to 999 prints as three digits. */
  lemma ThreeDigits(n: nat)
    requires 100 <= n < 1000
    ensures |DecimalString(n)| == 3
  {
    assert 10 <= n / 10 < 100;
    assert 1 <= n / 10 / 10 < 10;
    assert |DecimalString(n / 10 / 10)| == 1;
    assert |DecimalString(n / 10)| == |DecimalString(n / 10 / 10)| + 1;
    assert |DecimalString(n)| == |DecimalString(n / 10)| + 1;
  }

  function DigitChar(d: nat): (c: char)
    requires d < 10
    ensures '0' <= c <= '9' && c as int - '0' as int == d
  {
    ('0' as int + d) as char
  }
}
