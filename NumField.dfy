/** `writeNum` (wilo.c:308-330): fixed-width decimal rendering of a
    `uint16_t` into a character buffer, right to left, with `nI` integer
    places and `nF` fraction places. Leading integer zeros become spaces, the
    units digit is always written, a '.' precedes the fraction digits, and a
    number that does not fit turns the whole field into '?'. */
module NumField {
  import opened Word

  function Pow10(n: nat): (r: nat)
    ensures r >= 1
  {
    if n == 0 then 1 else 10 * Pow10(n - 1)
  }

  /** `t = nI + (nF ? nF + 1 : 0)`: the number of characters written. */
  function Width(nI: nat, nF: nat): nat
  {
    nI + (if nF > 0 then nF + 1 else 0)
  }

  function DigitChar(d: int): (c: char)
    requires 0 <= d < 10
    ensures '0' <= c <= '9'
  {
    ('0' as int + d) as char
  }

  predicate IsDigit(c: char)
  {
    '0' <= c <= '9'
  }

  /** Position `j` holds the decimal point. */
  predicate IsPoint(nI: nat, nF: nat, j: nat)
  {
    nF > 0 && j == nI
  }

  /** The power of ten shown at a digit position: the units digit sits at
      `nI - 1`, integer places to its left, fraction places after the point. */
  function Place(nI: nat, nF: nat, j: nat): nat
    requires j < Width(nI, nF) && !IsPoint(nI, nF, j)
  {
    if j < nI then nI + nF - 1 - j else nI + nF - j
  }

  /** What the two digit loops leave at position `j`, before the overflow check. */
  function RawChar(num: nat, nI: nat, nF: nat, j: nat): char
    requires nI > 0 && j < Width(nI, nF)
  {
    if IsPoint(nI, nF, j) then '.'
    else
      var k := Place(nI, nF, j);
      if j < nI - 1 && num / Pow10(k) == 0 then ' '
      else DigitChar((num / Pow10(k)) % 10)
  }

  /** The character at position `j` of the rendered field. */
  function FieldChar(num: nat, nI: nat, nF: nat, j: nat): char
    requires nI > 0 && j < Width(nI, nF)
  {
    if num >= Pow10(nI + nF) then '?' else RawChar(num, nI, nF, j)
  }

  /** The whole rendered field. */
  function Field(num: nat, nI: nat, nF: nat): (s: seq<char>)
    requires nI > 0
    ensures |s| == Width(nI, nF)
  {
    seq(Width(nI, nF), j requires 0 <= j < Width(nI, nF) => FieldChar(num, nI, nF, j))
  }

  /** Reading a field back as a number: digits accumulate left to right,
      spaces and the point are skipped. */
  function Value(s: seq<char>): nat
    decreases |s|
  {
    if s == [] then 0
    else
      var c := s[|s| - 1];
      if IsDigit(c) then 10 * Value(s[..|s| - 1]) + (c as int - '0' as int)
      else Value(s[..|s| - 1])
  }

  lemma MulAtLeast(d: int, k: int)
    requires d > 0 && k >= 1
    ensures d * k >= d
  {
    assert d * k == d + d * (k - 1);
  }

  lemma DivUnique(n: int, d: int, q: int, r: int)
    requires d > 0 && n == d * q + r && 0 <= r < d
    ensures n / d == q && n % d == r
  {
    var q0, r0 := n / d, n % d;
    assert n == d * q0 + r0 && 0 <= r0 < d;
    if q0 < q {
      MulAtLeast(d, q - q0);
      assert false;
    } else if q < q0 {
      MulAtLeast(d, q0 - q);
      assert false;
    }
  }

  /** Dropping one more decimal place. */
  lemma DivPow10Succ(n: nat, k: nat)
    ensures n / Pow10(k + 1) == (n / Pow10(k)) / 10
  {
    var a := Pow10(k);
    var q, r := n / a, n % a;
    var q2, r2 := q / 10, q % 10;
    Regroup(a, q2, r2);
    BelowNextPlace(a, r2, r);
    DivUnique(n, 10 * a, q2, a * r2 + r);
  }

  lemma Regroup(a: int, q2: int, r2: int)
    ensures a * (10 * q2 + r2) == (10 * a) * q2 + a * r2
  {
  }

  lemma BelowNextPlace(a: int, r2: int, r: int)
    requires 0 <= r2 < 10 && 0 <= r < a
    ensures 0 <= a * r2 + r < 10 * a
  {
    assert a * r2 <= a * 9;
  }

  /** Once a quotient is zero it stays zero at higher places. */
  lemma DivPow10Zero(n: nat, k: nat)
    requires n / Pow10(k) == 0
    ensures n / Pow10(k + 1) == 0
  {
    DivPow10Succ(n, k);
  }

  /** Decimal places from index `j` to the end of the field. */
  function PlacesFrom(nI: nat, nF: nat, j: nat): nat
    requires j <= Width(nI, nF)
  {
    if j <= nI then nI - j + nF else Width(nI, nF) - j
  }

  /** Reading one more character. */
  lemma ValueSnoc(p: seq<char>, c: char)
    ensures Value(p + [c]) == if IsDigit(c) then 10 * Value(p) + (c as int - '0' as int) else Value(p)
  {
    assert (p + [c])[..|p|] == p;
  }

  /** The character at position `i` of a field that fits, and the places
      left after it. */
  lemma FieldStep(num: nat, nI: nat, nF: nat, i: nat)
    requires nI > 0 && num < Pow10(nI + nF) && i < Width(nI, nF)
    ensures Field(num, nI, nF)[i] == RawChar(num, nI, nF, i)
    ensures IsPoint(nI, nF, i) ==> PlacesFrom(nI, nF, i + 1) == PlacesFrom(nI, nF, i)
    ensures !IsPoint(nI, nF, i) ==> PlacesFrom(nI, nF, i) == Place(nI, nF, i) + 1
    ensures !IsPoint(nI, nF, i) ==> PlacesFrom(nI, nF, i + 1) == Place(nI, nF, i)
  {
  }

  /** One more character of a field that fits extends the read-back value by
      one decimal place, or leaves it unchanged at the point. */
  lemma PrefixStep(num: nat, nI: nat, nF: nat, i: nat)
    requires nI > 0 && num < Pow10(nI + nF) && i < Width(nI, nF)
    requires Value(Field(num, nI, nF)[..i]) == num / Pow10(PlacesFrom(nI, nF, i))
    ensures Value(Field(num, nI, nF)[..i + 1]) == num / Pow10(PlacesFrom(nI, nF, i + 1))
  {
    var s := Field(num, nI, nF);
    var c := s[i];
    assert s[..i + 1] == s[..i] + [c];
    ValueSnoc(s[..i], c);
    FieldStep(num, nI, nF, i);
    if !IsPoint(nI, nF, i) {
      var k := Place(nI, nF, i);
      var q := num / Pow10(k);
      DivPow10Succ(num, k);
      assert Value(s[..i]) == q / 10;
      if i < nI - 1 && q == 0 {
        assert c == ' ';
      } else {
        assert c == DigitChar(q % 10);
        assert Value(s[..i + 1]) == 10 * (q / 10) + q % 10;
      }
    }
  }

  /** The prefix of a field read back is the number with the remaining
      places dropped. */
  lemma {:induction false} PrefixValue(num: nat, nI: nat, nF: nat, j: nat)
    requires nI > 0 && num < Pow10(nI + nF) && j <= Width(nI, nF)
    ensures Value(Field(num, nI, nF)[..j]) == num / Pow10(PlacesFrom(nI, nF, j))
    decreases j
  {
    if j == 0 {
      assert Field(num, nI, nF)[..0] == [];
      DivUnique(num, Pow10(nI + nF), 0, num);
    } else {
      PrefixValue(num, nI, nF, j - 1);
      PrefixStep(num, nI, nF, j - 1);
    }
  }

  /** A number that fits reads back from its field unchanged. */
  lemma FieldReadsBack(num: nat, nI: nat, nF: nat)
    requires nI > 0 && num < Pow10(nI + nF)
    ensures Value(Field(num, nI, nF)) == num
  {
    var s := Field(num, nI, nF);
    PrefixValue(num, nI, nF, |s|);
    assert s[..|s|] == s;
  }

  /** The layout of a field that fits: the point at `nI` exactly when there
      are fraction places, the units digit always a digit, only digits after
      the point, and spaces only before the first significant digit. */
  lemma FieldLayout(num: nat, nI: nat, nF: nat)
    requires nI > 0 && num < Pow10(nI + nF)
    ensures forall j :: 0 <= j < Width(nI, nF) ==> (Field(num, nI, nF)[j] == '.' <==> IsPoint(nI, nF, j))
    ensures IsDigit(Field(num, nI, nF)[nI - 1])
    ensures forall j :: nI < j < Width(nI, nF) ==> IsDigit(Field(num, nI, nF)[j])
    ensures forall i, j :: 0 <= i < j < nI && Field(num, nI, nF)[j] == ' ' ==> Field(num, nI, nF)[i] == ' '
  {
    var s := Field(num, nI, nF);
    forall i, j | 0 <= i < j < nI && s[j] == ' '
      ensures s[i] == ' '
    {
      var kj, ki := Place(nI, nF, j), Place(nI, nF, i);
      assert num / Pow10(kj) == 0;
      var k := kj;
      while k < ki
        invariant kj <= k <= ki && num / Pow10(k) == 0
      {
        DivPow10Zero(num, k);
        k := k + 1;
      }
    }
  }

  /** A number that does not fit shows as all '?'. */
  lemma FieldOverflow(num: nat, nI: nat, nF: nat)
    requires nI > 0 && num >= Pow10(nI + nF)
    ensures forall j :: 0 <= j < Width(nI, nF) ==> Field(num, nI, nF)[j] == '?'
  {
  }

  /** A fraction digit: the digit of its place. */
  lemma FractionChar(num: nat, nI: nat, nF: nat, o: nat)
    requires nI > 0 && nI < o < Width(nI, nF)
    ensures RawChar(num, nI, nF, o) == DigitChar((num / Pow10(nI + nF - o)) % 10)
  {
  }

  /** The units digit is always a digit, even for zero. */
  lemma UnitsChar(num: nat, nI: nat, nF: nat)
    requires nI > 0
    ensures RawChar(num, nI, nF, nI - 1) == DigitChar((num / Pow10(nF)) % 10)
  {
  }

  /** An integer digit left of the units digit is blank once the quotient is zero. */
  lemma IntegerChar(num: nat, nI: nat, nF: nat, o: nat)
    requires o < nI - 1
    ensures RawChar(num, nI, nF, o) ==
      var q := num / Pow10(nI + nF - 1 - o); if q != 0 then DigitChar(q % 10) else ' '
  {
  }

  /** The fraction loop of `writeNum` (lines 315-320): the `nF` fraction
      digits right to left, then the point; returns the quotient left over
      and the position reached. */
  method WriteFraction(out: array<char>, off: nat, num: u16, nI: u8, nF: u8) returns (n: nat, o: nat)
    requires nI > 0 && Width(nI, nF) < 0x100
    requires off + Width(nI, nF) <= out.Length
    modifies out
    ensures o == nI && n == num / Pow10(nF)
    ensures forall j :: o <= j < Width(nI, nF) ==> out[off + j] == RawChar(num, nI, nF, j)
    ensures forall i :: 0 <= i < out.Length && !(off + o <= i < off + Width(nI, nF)) ==> out[i] == old(out[i])
  {
    var t := nI + (if nF > 0 then nF + 1 else 0);
    o := t;
    n := num;
    var f := nF;
    while f > 0
      invariant 0 <= f <= nF
      invariant o == (if f > 0 then nI + 1 + f else if nF > 0 then nI else t)
      invariant n == num / Pow10(nF - f)
      invariant forall j :: o <= j < t ==> out[off + j] == RawChar(num, nI, nF, j)
      invariant forall i :: 0 <= i < out.Length && !(off + o <= i < off + t) ==> out[i] == old(out[i])
    {
      f := f - 1;
      o := o - 1;
      FractionChar(num, nI, nF, o);
      DivPow10Succ(num, nF - f - 1);
      out[off + o] := DigitChar(n % 10);
      n := n / 10;
      if f == 0 {
        o := o - 1;
        out[off + o] := '.';
      }
    }
  }

  /** The two digit loops of `writeNum` (lines 315-325): they leave the raw
      field at `out[off..off + t]` and return the quotient left over after
      the last integer place, which is non-zero exactly when the number does
      not fit. */
  method WriteDigits(out: array<char>, off: nat, num: u16, nI: u8, nF: u8) returns (n: nat)
    requires nI > 0 && Width(nI, nF) < 0x100
    requires off + Width(nI, nF) <= out.Length
    modifies out
    ensures n == num / Pow10(nI + nF)
    ensures forall j :: 0 <= j < Width(nI, nF) ==> out[off + j] == RawChar(num, nI, nF, j)
    ensures forall i :: 0 <= i < out.Length && !(off <= i < off + Width(nI, nF)) ==> out[i] == old(out[i])
  {
    var t := nI + (if nF > 0 then nF + 1 else 0);
    var o;
    n, o := WriteFraction(out, off, num, nI, nF);
    // the units digit
    o := o - 1;
    UnitsChar(num, nI, nF);
    DivPow10Succ(num, nF);
    out[off + o] := DigitChar(n % 10);
    n := n / 10;
    // the remaining integer digits, blank once the quotient is zero
    var i := nI - 1;
    while i > 0
      invariant 0 <= i < nI && o == i
      invariant n == num / Pow10(nF + nI - i)
      invariant forall j :: o <= j < t ==> out[off + j] == RawChar(num, nI, nF, j)
      invariant forall i :: 0 <= i < out.Length && !(off + o <= i < off + t) ==> out[i] == old(out[i])
    {
      o := o - 1;
      IntegerChar(num, nI, nF, o);
      DivPow10Succ(num, nF + nI - i);
      out[off + o] := if n != 0 then DigitChar(n % 10) else ' ';
      n := n / 10;
      i := i - 1;
    }
  }

  /** `writeNum(out + off, num, nI, nF)` (lines 308-330): writes exactly the
      field's characters at `out[off..off + t]` and nothing else; nothing at
      all when `nI == 0`. The caller provides room for the `t` characters. */
  method WriteNum(out: array<char>, off: nat, num: u16, nI: u8, nF: u8)
    requires Width(nI, nF) < 0x100
    requires off + Width(nI, nF) <= out.Length
    modifies out
    ensures nI == 0 ==> out[..] == old(out[..])
    ensures nI > 0 ==> out[off..off + Width(nI, nF)] == Field(num, nI, nF)
    ensures forall i :: 0 <= i < out.Length && !(off <= i < off + Width(nI, nF)) ==> out[i] == old(out[i])
  {
    if nI == 0 {
      return;
    }
    var t := nI + (if nF > 0 then nF + 1 else 0);
    var n := WriteDigits(out, off, num, nI, nF);
    assert n != 0 <==> num >= Pow10(nI + nF) by {
      if num < Pow10(nI + nF) {
        DivUnique(num, Pow10(nI + nF), 0, num);
      }
    }
    if n != 0 {
      // the number does not fit: the whole field becomes '?'
      var w := t;
      while w > 0
        invariant 0 <= w <= t
        invariant forall i :: off + w <= i < off + t ==> out[i] == '?'
        invariant forall i :: 0 <= i < out.Length && !(off <= i < off + t) ==> out[i] == old(out[i])
      {
        w := w - 1;
        out[off + w] := '?';
      }
    }
    assert forall j :: 0 <= j < t ==> out[off + j] == FieldChar(num, nI, nF, j);
    assert out[off..off + t] == Field(num, nI, nF);
  }
}
