/** The layout of the LCD menu line written by `writeMenuLine`
    (wilo.c:860-874): `[` at 0, a six-place field for the default at 1..6,
    a separator at 7..9, a six-place field for the edited value at 10..15.
    Each field holds the number right-aligned against its unit. */
module MenuLine {
  import opened Word
  import opened NumField
  import opened Params

  /** The whole of `writeMenuLine` once the parameter row is looked up:
      `unit` ends the six places after the left bracket and after the
      separator, and `def` and `value` fill the places before it. */
  method LayOutItem(line: array<char>, unit: seq<char>, nF: nat, def: u16, value: u16)
    requires line.Length == 20 && nF < 0x100 && |unit| <= 6
    requires forall k :: 0 <= k < |unit| ==> unit[k] != '\0'
    requires 0 < IntegerDigits(|unit|, nF) && Width(IntegerDigits(|unit|, nF), nF) + |unit| == 6
    modifies line
    ensures line[1..7] == Field(def, IntegerDigits(|unit|, nF), nF) + unit
    ensures line[10..16] == Field(value, IntegerDigits(|unit|, nF), nF) + unit
    ensures line[0] == old(line[0]) && line[7..10] == old(line[7..10]) && line[16..] == old(line[16..])
  {
    var nU := StrLen(unit);
    assert nU == |unit|;
    CopyUnit(line, unit);
    ghost var m0 := line[..];
    var nI := if nF > 0 then 5 - nU - nF else 6 - nU;
    WriteFields(line, def, value, nI as u8, nF as u8);
    var w := Width(nI, nF);
    assert line[1 + w..7] == m0[7 - nU..7];
    assert line[10 + w..16] == m0[16 - nU..16];
    assert line[1..7] == line[1..1 + w] + line[1 + w..7];
    assert line[10..16] == line[10..10 + w] + line[10 + w..16];
  }

  /** The two `writeNum` calls: the default at position 1 and the edited
      value at position 10, each `Width(nI, nF)` wide. */
  method WriteFields(line: array<char>, def: u16, value: u16, nI: u8, nF: u8)
    requires line.Length == 20 && 0 < nI && Width(nI as nat, nF as nat) <= 6
    modifies line
    ensures line[1..1 + Width(nI as nat, nF as nat)] == Field(def, nI as nat, nF as nat)
    ensures line[10..10 + Width(nI as nat, nF as nat)] == Field(value, nI as nat, nF as nat)
    ensures forall j :: 0 <= j < line.Length && !(1 <= j < 1 + Width(nI as nat, nF as nat)) && !(10 <= j < 10 + Width(nI as nat, nF as nat)) ==>
      line[j] == old(line[j])
  {
    var w := Width(nI as nat, nF as nat);
    ghost var m0 := line[..];
    WriteNum(line, 1, def, nI, nF);
    ghost var m1 := line[..];
    WriteNum(line, 10, value, nI, nF);
    assert forall j :: 0 <= j < 10 ==> line[j] == m1[j];
    assert forall j :: 1 + w <= j < line.Length && !(10 <= j < 10 + w) ==> line[j] == m0[j];
  }

  /** The unit loop (wilo.c:866-869): the unit ends at position 6, right of
      the default, and at position 15, right of the edited value. */
  method CopyUnit(line: array<char>, unit: seq<char>)
    requires line.Length == 20 && |unit| <= 6
    modifies line
    ensures line[7 - |unit|..7] == unit && line[16 - |unit|..16] == unit
    ensures forall j :: 0 <= j < line.Length && !(7 - |unit| <= j < 7) && !(16 - |unit| <= j < 16) ==>
      line[j] == old(line[j])
  {
    var nU := |unit|;
    var i := 0;
    while i < nU
      invariant 0 <= i <= nU
      invariant forall k :: 0 <= k < i ==> line[k + 7 - nU] == unit[k] && line[k + 16 - nU] == unit[k]
      invariant forall j :: 0 <= j < 20 && !(7 - nU <= j < 7 - nU + i) && !(16 - nU <= j < 16 - nU + i) ==>
        line[j] == old(line[j])
    {
      line[i + 7 - nU] := unit[i];
      line[i + 16 - nU] := unit[i];
      i := i + 1;
    }
  }
}
