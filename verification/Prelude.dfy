/** Values shared by every component: optional values, the numeric conversions of C++, and blank texts. */
module Prelude {

  datatype Option<+T> = None | Some(value: T)

  function MinReal(a: real, b: real): real {
    if b < a then b else a
  }

  function MaxReal(a: real, b: real): real {
    if a < b then b else a
  }

  /** `static_cast<int>` of a floating value: the fraction is dropped towards zero. */
  function Truncate(x: real): (i: int)
    ensures x >= 0.0 ==> i >= 0 && i as real <= x < (i + 1) as real
    ensures x < 0.0 ==> i <= 0 && (i - 1) as real < x <= i as real
  {
    if x >= 0.0 then x.Floor else -((-x).Floor)
  }

  /** Truncation keeps the order of its arguments. */
  lemma TruncateMonotone(x: real, y: real)
    requires x <= y
    ensures Truncate(x) <= Truncate(y)
  {
    if x < 0.0 <= y {
      assert Truncate(x) <= 0 <= Truncate(y);
    }
  }

  /** The characters that Python's `strip` removes. */
  predicate IsStripped(c: char) {
    var n := c as int;
    || 9 <= n <= 13 || 0x1c <= n <= 0x20 || n == 0x85 || n == 0xa0 || n == 0x1680 || 0x2000 <= n <= 0x200a
    || n == 0x2028 || n == 0x2029 || n == 0x202f || n == 0x205f || n == 0x3000
  }

  predicate Blank(text: string) {
    forall k :: 0 <= k < |text| ==> IsStripped(text[k])
  }
}
