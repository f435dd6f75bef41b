/** Fixed-width machine words as bounded integers, with the wrap-around,
    sign extension and big-endian layout written out. */
module Words {

  datatype Option<+T> = None | Some(value: T)

  type u8 = x: int | 0 <= x < 0x100
  type u16 = x: int | 0 <= x < 0x1_0000
  type u32 = x: int | 0 <= x < 0x1_0000_0000

  /** `wrapping_add`; the second operand may be a signed displacement. */
  function Add32(a: u32, b: int): u32 {
    (a + b) % 0x1_0000_0000
  }

  /** `wrapping_sub`. */
  function Sub32(a: u32, b: int): u32 {
    (a - b) % 0x1_0000_0000
  }

  /** `as i8 as i32` of the low byte. */
  function Sext8(b: u8): int {
    if b < 0x80 then b else b - 0x100
  }

  /** `as i16 as i32` of a word. */
  function Sext16(w: u16): int {
    if w < 0x8000 then w else w - 0x1_0000
  }

  // ------------------------------------------------------------- wrap-around

  /** Wrapping first never changes where a sum wraps to. */
  lemma WrapsAgain(a: int, x: int)
    ensures (a % 0x1_0000_0000 + x) % 0x1_0000_0000 == (a + x) % 0x1_0000_0000
  {
    var r, q := a % 0x1_0000_0000, a / 0x1_0000_0000;
    assert a + x == r + x + 0x1_0000_0000 * q;
    Multiples32(r + x, q);
  }

  lemma Multiples32(a: int, k: int)
    ensures (a + 0x1_0000_0000 * k) % 0x1_0000_0000 == a % 0x1_0000_0000
  {
  }

  // ------------------------------------------------- division, multiplied out

  lemma Multiply(s: nat, x: int, y: int)
    requires x <= y
    ensures s * x <= s * y
  {
  }

  lemma QuotientUnique(s: nat, x: int, r: nat)
    requires r < s
    ensures (s * x + r) % s == r && (s * x + r) / s == x
  {
    var n := s * x + r;
    var d := n / s - x;
    assert s * (n / s) + n % s == n;
    assert s * d == r - n % s;
    if d >= 1 {
      Multiply(s, 1, d);
    } else if d <= -1 {
      Multiply(s, d, -1);
    }
  }
}
