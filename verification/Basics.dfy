/** Types every other module uses. */
module Basics {

  datatype Option<+T> = None | Some(value: T)

  datatype Result<+T, +E> = Ok(value: T) | Err(error: E)

  /** Go's int32, used for replica counts and ordinals. */
  type int32 = x: int | -0x8000_0000 <= x < 0x8000_0000

  /** Two's complement truncation: what an int32 product keeps of the exact one. */
  function Wrap32(x: int): (r: int32)
    ensures exists k: int :: x == r + k * 0x1_0000_0000
  {
    var low := x % 0x1_0000_0000;
    var r := if low < 0x8000_0000 then low else low - 0x1_0000_0000;
    assert x == r + (x / 0x1_0000_0000 + if low < 0x8000_0000 then 0 else 1) * 0x1_0000_0000;
    r
  }

  /** `strings.Contains`. */
  predicate Contains(s: string, part: string) {
    exists i | 0 <= i <= |s| - |part| :: OccursAt(s, part, i)
  }

  predicate OccursAt(s: string, part: string, i: nat)
    requires i + |part| <= |s|
  {
    s[i..i + |part|] == part
  }
}
