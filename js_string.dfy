/** The few JavaScript built-ins the worker relies on, over Dafny strings.
    A JavaScript string is a sequence of UTF-16 code units. Every character of
    the worker's literals (including the trademark sign U+2122 and the em dash)
    and of a URL pathname (percent-encoded ASCII) is a single unit, so a Dafny
    `string` stands for them directly; a configured site name outside the
    Basic Multilingual Plane would be two units in JavaScript but one `char`
    here. */
module JsString {

  datatype Option<+T> = None | Some(value: T)

  /** JavaScript truthiness of a string: only the empty string is falsy. */
  predicate Truthy(s: string) {
    s != ""
  }

  /** `v || fallback` where `v` has type `string | undefined`:
      `undefined` and `""` are falsy and select the fallback. */
  function Or(v: Option<string>, fallback: string): (r: string)
    ensures r == fallback || (v.Some? && r == v.value)
    ensures v.Some? && Truthy(v.value) ==> r == v.value
    ensures !(v.Some? && Truthy(v.value)) ==> r == fallback
  {
    match v
    case Some(s) => if Truthy(s) then s else fallback
    case None => fallback
  }

  /** `x` occurs in `s` starting at index `i`. */
  predicate OccursAt(x: string, s: string, i: nat) {
    i <= |s| && x <= s[i..]
  }

  /** An occurrence inside `a` is one inside `a + b`, at the same index. */
  lemma OccursBefore(x: string, a: string, b: string, i: nat)
    requires OccursAt(x, a, i)
    ensures OccursAt(x, a + b, i)
  {
    assert (a + b)[i..i + |x|] == a[i..i + |x|];
  }

  /** An occurrence inside `b` is one inside `a + b`, shifted by `|a|`. */
  lemma OccursAfter(x: string, a: string, b: string, i: nat)
    requires OccursAt(x, b, i)
    ensures OccursAt(x, a + b, |a| + i)
  {
    assert (a + b)[|a| + i..|a| + i + |x|] == b[i..i + |x|];
  }

  /** Every string occurs in itself at index 0. */
  lemma OccursSelf(x: string)
    ensures OccursAt(x, x, 0)
  {
  }

  /** `x` occurs in `before + x + after` right after `before`. */
  lemma OccursBetween(x: string, before: string, after: string)
    ensures OccursAt(x, before + x + after, |before|)
  {
    assert x[0..|x|] == x;
    OccursAfter(x, before, x, 0);
    OccursBefore(x, before + x, after, |before|);
  }

  /** `s.lastIndexOf(c)` for a one-character needle: the greatest index
      holding `c`, or -1 when `c` does not occur in `s`. */
  function LastIndexOf(s: string, c: char): (r: int)
    ensures -1 <= r < |s|
    ensures 0 <= r ==> s[r] == c
    ensures forall j :: r < j < |s| ==> s[j] != c
  {
    if |s| == 0 then -1
    else if s[|s| - 1] == c then |s| - 1
    else LastIndexOf(s[..|s| - 1], c)
  }

  function DigitChar(d: nat): (c: char)
    requires d < 10
    ensures '0' <= c <= '9' && (c as int) - ('0' as int) == d
  {
    ((d + '0' as int) as char)
  }

  /** `String(n)` (as used by a template literal) for a non-negative
      integer: its shortest decimal numeral. JavaScript agrees with this for
      integers below 10^21; from there on it switches to exponent notation. */
  function Decimal(n: nat): (s: string)
    ensures |s| >= 1
    ensures forall i :: 0 <= i < |s| ==> '0' <= s[i] <= '9'
    ensures |s| > 1 ==> s[0] != '0'
    decreases n
  {
    if n < 10 then [DigitChar(n)] else Decimal(n / 10) + [DigitChar(n % 10)]
  }

  /** The number a string of decimal digits denotes. */
  function DecimalValue(s: string): nat
    requires forall i :: 0 <= i < |s| ==> '0' <= s[i] <= '9'
  {
    if s == [] then 0
    else DecimalValue(s[..|s| - 1]) * 10 + ((s[|s| - 1] as int) - ('0' as int))
  }

  /** `Decimal` is a faithful numeral: reading it back gives `n`. */
  lemma {:induction false} DecimalRoundTrip(n: nat)
    ensures DecimalValue(Decimal(n)) == n
  {
    if n >= 10 {
      var s := Decimal(n);
      assert s[..|s| - 1] == Decimal(n / 10);
      DecimalRoundTrip(n / 10);
    }
  }
}
