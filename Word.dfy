/** Machine words of the H8/300H target, where `int` is 16 bits wide.
    Every C integer type used by the firmware is a subset of `int`, and every
    place where the target wraps around is written out with one of the
    functions below. */
module Word {

  type u8 = x: int | 0 <= x < 0x100
  type u16 = x: int | 0 <= x < 0x1_0000
  type i16 = x: int | -0x8000 <= x < 0x8000
  type u32 = x: int | 0 <= x < 0x1_0000_0000

  /** Truncation to `uint8_t`. */
  function Wrap8(x: int): (r: u8)
    ensures exists k: int :: x == r + 0x100 * k
  {
    var k := x / 0x100;
    assert x == x % 0x100 + 0x100 * k;
    x % 0x100
  }

  /** Truncation to `uint16_t` (also the result of 16-bit unsigned arithmetic). */
  function Wrap16(x: int): (r: u16)
    ensures exists k: int :: x == r + 0x1_0000 * k
  {
    var k := x / 0x1_0000;
    assert x == x % 0x1_0000 + 0x1_0000 * k;
    x % 0x1_0000
  }

  /** Truncation to `uint32_t`. */
  function Wrap32(x: int): (r: u32)
    ensures exists k: int :: x == r + 0x1_0000_0000 * k
  {
    var k := x / 0x1_0000_0000;
    assert x == x % 0x1_0000_0000 + 0x1_0000_0000 * k;
    x % 0x1_0000_0000
  }

  /** Two's-complement reading of a 16-bit pattern as `int16_t`. */
  function ToInt16(x: u16): (r: i16)
    ensures Wrap16(r) == x
    ensures x < 0x8000 <==> r >= 0
  {
    if x < 0x8000 then x else x - 0x1_0000
  }

  /** `now - since` on two `uint16_t` tick counters: the 16-bit difference. */
  function Elapsed(now: u16, since: u16): (r: u16)
    ensures since <= now ==> r == now - since
    ensures now < since ==> r == now - since + 0x1_0000
  {
    Wrap16(now - since)
  }

  /** A tick counter that is `d` ticks ahead of `since` reads back exactly `d`
      ticks of elapsed time, as long as less than one full wrap has passed. */
  lemma ElapsedAfter(since: u16, d: nat)
    requires d < 0x1_0000
    ensures Elapsed(Wrap16(since + d), since) == d
  {
  }

  /** Wrapping an integer that is already in range changes nothing, and
      wrapping after adding whole multiples of the modulus is the same. */
  lemma Wrap16Mod(x: int, k: int)
    ensures Wrap16(x + 0x1_0000 * k) == Wrap16(x)
  {
  }

  lemma Wrap32Mod(x: int, k: int)
    ensures Wrap32(x + 0x1_0000_0000 * k) == Wrap32(x)
  {
  }
}
