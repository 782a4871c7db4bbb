/** The parameter table `paramDef` (wilo.c:117-137) and the EEPROM layout
    that `loadEeprom` (wilo.c:413-443) checks: the 8-byte signature
    "Wilo MT6" at address 0 and one big-endian 16-bit word per parameter at
    its `eepAddr`. The serial EEPROM itself is an image of 256 bytes. */
module Params {
  import opened Word
  import opened NumField

  datatype ParamDef = ParamDef(eepAddr: u8, name: string, unit: string, fraction: nat, def: int, min: int, max: int)

  const N_PARAM := 19
  const EEP_SIZE := 256
  const SIGN_LEN := 8

  /** Row `i` of `paramDef`. */
  function Row(i: nat): ParamDef
    requires i < N_PARAM
  {
    match i
    case 0 => ParamDef(0x08, "ON pressure", "bar", 1, 25, 5, 45)
    case 1 => ParamDef(0x0a, "OFF pressure", "bar", 1, 30, 10, 50)
    case 2 => ParamDef(0x0c, "OFF delay", "s", 0, 3, 0, 15)
    case 3 => ParamDef(0x0e, "Autorun", "", 0, 1, 0, 1)
    case 4 => ParamDef(0x10, "Max frequency", "Hz", 0, 50, 5, 62)
    case 5 => ParamDef(0x12, "Base frequency", "Hz", 0, 34, 5, 62)
    case 6 => ParamDef(0x14, "Min frequency", "Hz", 0, 30, 5, 62)
    case 7 => ParamDef(0x16, "Stop frequency", "Hz", 0, 1, 1, 30)
    case 8 => ParamDef(0x18, "Manual frequency", "Hz", 0, 10, 1, 62)
    case 9 => ParamDef(0x1a, "Rated frequency", "Hz", 0, 50, 5, 62)
    case 10 => ParamDef(0x1c, "Rated voltage", "V", 0, 230, 10, 400)
    case 11 => ParamDef(0x1e, "Max current", "A", 1, 50, 5, 80)
    case 12 => ParamDef(0x26, "Undervoltage", "V", 0, 120, 50, 200)
    case 13 => ParamDef(0x28, "Overvoltage", "V", 0, 390, 200, 400)
    case 14 => ParamDef(0x2a, "Max temperature", "\U{1}C", 0, 50, 25, 120)
    case 15 => ParamDef(0x24, "Rotation dir.", "", 0, 0, 0, 1)
    case 16 => ParamDef(0x20, "External switch", "", 0, 0, 0, 2)
    case 17 => ParamDef(0x22, "Ignore faults", "", 0, 0, 0, 1)
    case _ => ParamDef(0x2c, "LED intensity", "", 0, 5, 1, 7)
  }

  /** `eepSign`, as the bytes stored at addresses 0..7. */
  const Signature: seq<u8> := [0x57, 0x69, 0x6c, 0x6f, 0x20, 0x4d, 0x54, 0x36]

  lemma SignatureSpellsName()
    ensures |Signature| == SIGN_LEN
    ensures forall i :: 0 <= i < SIGN_LEN ==> Signature[i] == "Wilo MT6"[i] as int
  {
  }

  predicate InRange(i: nat, v: int)
    requires i < N_PARAM
  {
    Row(i).min <= v <= Row(i).max
  }

  /** The inverse of the address column: which parameter lives at `addr`. */
  function SlotAt(addr: int): int
  {
    match addr
    case 0x08 => 0 case 0x0a => 1 case 0x0c => 2 case 0x0e => 3
    case 0x10 => 4 case 0x12 => 5 case 0x14 => 6 case 0x16 => 7
    case 0x18 => 8 case 0x1a => 9 case 0x1c => 10 case 0x1e => 11
    case 0x26 => 12 case 0x28 => 13 case 0x2a => 14 case 0x24 => 15
    case 0x20 => 16 case 0x22 => 17 case 0x2c => 18
    case _ => -1
  }

  /** Facts about one row of the table: its word lies after the signature,
      at an even address, and no other row shares it; its default is inside
      its own range, and the range lies within 0..400. */
  lemma RowFacts(i: nat)
    requires i < N_PARAM
    ensures SIGN_LEN <= Row(i).eepAddr && Row(i).eepAddr + 1 < EEP_SIZE
    ensures Row(i).eepAddr % 2 == 0
    ensures SlotAt(Row(i).eepAddr) == i
    ensures InRange(i, Row(i).def)
    ensures 0 <= Row(i).min && Row(i).max <= 400
  {
  }

  /** Every parameter's word lies inside the image, after the signature,
      and its default fits the word. */
  lemma DefaultFitsWord(i: nat)
    requires i < N_PARAM
    ensures SIGN_LEN <= Row(i).eepAddr && Row(i).eepAddr + 1 < EEP_SIZE
    ensures 0 <= Row(i).def <= 400
  {
    RowFacts(i);
  }

  /** Two different parameters occupy disjoint 2-byte words. */
  lemma WordsApart(i: nat, j: nat)
    requires i < N_PARAM && j < N_PARAM && i != j
    ensures Row(i).eepAddr + 1 < Row(j).eepAddr || Row(j).eepAddr + 1 < Row(i).eepAddr
  {
    RowFacts(i);
    RowFacts(j);
  }

  predicate IsImage(image: seq<u8>)
  {
    |image| == EEP_SIZE
  }

  /** `eepRead((uint8_t *) &value, addr, 2)` on the big-endian target: the
      byte at `addr` is the high byte of the `int16_t`. */
  function ReadWord(image: seq<u8>, addr: nat): (v: i16)
    requires addr + 1 < |image|
    ensures Wrap16(v) == 0x100 * (image[addr] as int) + image[addr + 1]
  {
    ToInt16(0x100 * (image[addr] as int) + image[addr + 1])
  }

  /** `eepWrite((uint8_t *) &value, addr, 2)`: high byte first. */
  function WriteWord(image: seq<u8>, addr: nat, v: i16): (image': seq<u8>)
    requires addr + 1 < |image|
    ensures |image'| == |image|
    ensures forall a :: 0 <= a < |image| && a != addr && a != addr + 1 ==> image'[a] == image[a]
  {
    var w := Wrap16(v);
    image[addr := w / 0x100][addr + 1 := w % 0x100]
  }

  /** A word written is read back unchanged. */
  lemma WriteReadWord(image: seq<u8>, addr: nat, v: i16)
    requires addr + 1 < |image|
    ensures ReadWord(WriteWord(image, addr, v), addr) == v
  {
    var w := Wrap16(v);
    var image' := WriteWord(image, addr, v);
    assert 0x100 * (image'[addr] as int) + image'[addr + 1] == w;
  }

  /** `eepWrite((uint8_t *) eepSign, 0, 8)`. */
  function WriteSignature(image: seq<u8>): (image': seq<u8>)
    requires IsImage(image)
    ensures IsImage(image') && image'[..SIGN_LEN] == Signature
    ensures forall a :: SIGN_LEN <= a < EEP_SIZE ==> image'[a] == image[a]
  {
    Signature + image[SIGN_LEN..]
  }

  predicate SignatureOk(image: seq<u8>)
    requires IsImage(image)
  {
    forall i :: 0 <= i < SIGN_LEN ==> image[i] == Signature[i]
  }

  /** The value stored for parameter `i`. */
  function Stored(image: seq<u8>, i: nat): i16
    requires IsImage(image) && i < N_PARAM
  {
    RowFacts(i);
    ReadWord(image, Row(i).eepAddr)
  }

  /** The image is accepted: signature intact and every stored value inside
      its parameter's range. */
  predicate Accepts(image: seq<u8>)
    requires IsImage(image)
  {
    SignatureOk(image) && forall i :: 0 <= i < N_PARAM ==> InRange(i, Stored(image, i))
  }

  /** The image holds exactly `values`. */
  predicate Holds(image: seq<u8>, values: seq<int>)
    requires IsImage(image)
  {
    |values| == N_PARAM && forall i :: 0 <= i < N_PARAM ==> Stored(image, i) == values[i]
  }

  /** Every value is inside its parameter's range. */
  predicate AllInRange(values: seq<int>)
  {
    |values| == N_PARAM && forall i :: 0 <= i < N_PARAM ==> InRange(i, values[i])
  }

  function Defaults(): (values: seq<int>)
    ensures |values| == N_PARAM
  {
    seq(N_PARAM, i requires 0 <= i < N_PARAM => Row(i).def)
  }

  /** Every default lies in its own range. */
  lemma DefaultsInRange()
    ensures AllInRange(Defaults())
  {
    forall i | 0 <= i < N_PARAM
      ensures InRange(i, Defaults()[i])
    {
      RowFacts(i);
    }
  }

  /** Writing one parameter's word changes only that parameter's stored value
      and leaves the signature alone. */
  lemma WriteParam(image: seq<u8>, i: nat, v: i16)
    requires IsImage(image) && i < N_PARAM
    ensures IsImage(WriteWord(image, Row(i).eepAddr, v))
    ensures Stored(WriteWord(image, Row(i).eepAddr, v), i) == v
    ensures forall j :: 0 <= j < N_PARAM && j != i ==> Stored(WriteWord(image, Row(i).eepAddr, v), j) == Stored(image, j)
    ensures SignatureOk(image) ==> SignatureOk(WriteWord(image, Row(i).eepAddr, v))
  {
    RowFacts(i);
    var image' := WriteWord(image, Row(i).eepAddr, v);
    WriteReadWord(image, Row(i).eepAddr, v);
    forall j | 0 <= j < N_PARAM && j != i
      ensures Stored(image', j) == Stored(image, j)
    {
      RowFacts(j);
      WordsApart(i, j);
    }
  }

  /** Writing the signature leaves every stored value alone. */
  lemma WriteSignatureKeepsValues(image: seq<u8>)
    requires IsImage(image)
    ensures SignatureOk(WriteSignature(image))
    ensures forall j :: 0 <= j < N_PARAM ==> Stored(WriteSignature(image), j) == Stored(image, j)
  {
    forall j | 0 <= j < N_PARAM
      ensures Stored(WriteSignature(image), j) == Stored(image, j)
    {
      RowFacts(j);
    }
  }

  /** The repair path: every parameter's default written in table order,
      `n` of them so far. */
  function WriteDefaults(image: seq<u8>, n: nat): (image': seq<u8>)
    requires IsImage(image) && n <= N_PARAM
    ensures IsImage(image')
    decreases n
  {
    if n == 0 then image
    else
      RowFacts(n - 1);
      WriteWord(WriteDefaults(image, n - 1), Row(n - 1).eepAddr, Row(n - 1).def)
  }

  /** One step of the repair loop. */
  lemma WriteDefaultsStep(image: seq<u8>, n: nat)
    requires IsImage(image) && 0 < n <= N_PARAM
    ensures Stored(WriteDefaults(image, n), n - 1) == Row(n - 1).def
    ensures forall j :: 0 <= j < N_PARAM && j != n - 1 ==> Stored(WriteDefaults(image, n), j) == Stored(WriteDefaults(image, n - 1), j)
  {
    RowFacts(n - 1);
    WriteParam(WriteDefaults(image, n - 1), n - 1, Row(n - 1).def);
  }

  /** After `n` default writes the first `n` parameters hold their defaults
      and the others are untouched. */
  lemma {:induction false} WriteDefaultsStores(image: seq<u8>, n: nat)
    requires IsImage(image) && n <= N_PARAM
    ensures forall j :: 0 <= j < n ==> Stored(WriteDefaults(image, n), j) == Row(j).def
    ensures forall j :: n <= j < N_PARAM ==> Stored(WriteDefaults(image, n), j) == Stored(image, j)
    decreases n
  {
    if n > 0 {
      WriteDefaultsStores(image, n - 1);
      WriteDefaultsStep(image, n);
      var next := WriteDefaults(image, n);
      forall j | 0 <= j < n
        ensures Stored(next, j) == Row(j).def
      {
        if j < n - 1 {
          assert Stored(next, j) == Stored(WriteDefaults(image, n - 1), j);
        }
      }
    }
  }

  /** The whole repair: all defaults, then the signature. */
  function Repaired(image: seq<u8>): (image': seq<u8>)
    requires IsImage(image)
    ensures IsImage(image')
  {
    WriteSignature(WriteDefaults(image, N_PARAM))
  }

  /** A repaired image holds every parameter's default. */
  lemma RepairedStoresDefaults(image: seq<u8>)
    requires IsImage(image)
    ensures SignatureOk(Repaired(image))
    ensures forall i :: 0 <= i < N_PARAM ==> Stored(Repaired(image), i) == Row(i).def
  {
    var written := WriteDefaults(image, N_PARAM);
    WriteDefaultsStores(image, N_PARAM);
    WriteSignatureKeepsValues(written);
  }

  /** A repaired image is accepted on the next start and holds the defaults:
      repair is stable. */
  lemma RepairedIsAccepted(image: seq<u8>)
    requires IsImage(image)
    ensures Accepts(Repaired(image)) && Holds(Repaired(image), Defaults())
  {
    RepairedStoresDefaults(image);
    var repaired := Repaired(image);
    forall i | 0 <= i < N_PARAM
      ensures Stored(repaired, i) == Defaults()[i] && InRange(i, Stored(repaired, i))
    {
      RowFacts(i);
    }
  }

  /** Committing an in-range value for parameter `i` (ENTER while editing,
      wilo.c:926-931) keeps the image accepted and in step with the
      parameters, all of which stay in range. */
  lemma CommitKeepsAccepted(image: seq<u8>, values: seq<int>, i: nat, v: i16)
    requires IsImage(image) && Accepts(image) && Holds(image, values) && i < N_PARAM && InRange(i, v)
    ensures IsImage(WriteWord(image, Row(i).eepAddr, v))
    ensures Accepts(WriteWord(image, Row(i).eepAddr, v))
    ensures Holds(WriteWord(image, Row(i).eepAddr, v), values[i := v as int])
    ensures AllInRange(values[i := v as int])
  {
    WriteParam(image, i, v);
  }

  /** An accepted image holds values that are all in range. */
  lemma AcceptedValuesInRange(image: seq<u8>, values: seq<int>)
    requires IsImage(image) && Accepts(image) && Holds(image, values)
    ensures AllInRange(values)
  {
  }

  /** `loadEeprom` (wilo.c:413-443) on the parameter array `param` and the
      EEPROM contents `image`: every parameter from the EEPROM if the
      signature is intact and every stored value lies in its range; otherwise
      every default, to the parameters and to the EEPROM, then the signature.
      Either way the EEPROM ends up accepted and holding the parameters. */
  method Load(param: array<int>, image: seq<u8>) returns (image': seq<u8>)
    requires param.Length == N_PARAM && IsImage(image)
    modifies param
    ensures IsImage(image') && Accepts(image') && Holds(image', param[..]) && AllInRange(param[..])
    ensures Accepts(image) ==> image' == image
    ensures !Accepts(image) ==> image' == Repaired(image) && param[..] == Defaults()
  {
    var i := 0;
    while i < SIGN_LEN
      invariant 0 <= i <= SIGN_LEN
      invariant forall k :: 0 <= k < i ==> image[k] == Signature[k]
    {
      if image[i] != Signature[i] {
        image' := Repair(param, image);
        return;
      }
      i := i + 1;
    }
    i := 0;
    while i < N_PARAM
      invariant 0 <= i <= N_PARAM && SignatureOk(image)
      invariant forall k :: 0 <= k < i ==> param[k] == Stored(image, k) && InRange(k, param[k])
    {
      RowFacts(i);
      var value := ReadWord(image, Row(i).eepAddr);
      if Row(i).min <= value <= Row(i).max {
        param[i] := value;
      } else {
        assert !InRange(i, Stored(image, i));
        image' := Repair(param, image);
        return;
      }
      i := i + 1;
    }
    image' := image;
  }

  /** The `repairEeprom` path of `loadEeprom` (wilo.c:435-442). */
  method Repair(param: array<int>, image: seq<u8>) returns (image': seq<u8>)
    requires param.Length == N_PARAM && IsImage(image)
    modifies param
    ensures image' == Repaired(image) && param[..] == Defaults()
    ensures Accepts(image') && Holds(image', param[..]) && AllInRange(param[..])
  {
    image' := image;
    ghost var defaults := Defaults();
    var i := 0;
    while i < N_PARAM
      invariant 0 <= i <= N_PARAM
      invariant image' == WriteDefaults(image, i)
      invariant forall k :: 0 <= k < i ==> param[k] == defaults[k]
    {
      DefaultFitsWord(i);
      param[i] := Row(i).def;
      assert param[i] == defaults[i];
      image' := WriteWord(image', Row(i).eepAddr, param[i]);
      i := i + 1;
    }
    image' := WriteSignature(image');
    assert param[..] == Defaults();
    RepairedIsAccepted(image);
    DefaultsInRange();
  }

  /** The menu field layout of `writeMenuLine` (wilo.c:860-874) for
      parameter `i`: `nF` fraction places and `nI` integer places. */
  function MenuFraction(i: nat): nat
    requires i < N_PARAM
  {
    Row(i).fraction
  }

  /** Integer digits of a menu field whose unit has `nU` characters and whose
      value has `nF` fraction digits: the field and the unit share six places. */
  function IntegerDigits(nU: nat, nF: nat): int
  {
    if nF > 0 then 5 - nU - nF else 6 - nU
  }

  function MenuIntegers(i: nat): int
    requires i < N_PARAM
  {
    IntegerDigits(|Row(i).unit|, Row(i).fraction)
  }

  /** For every parameter the value field and the unit fill the six
      characters between the brackets exactly, the unit holds no NUL, and
      every value in range fits its field, so the menu never shows '?'. */
  lemma MenuFieldFits(i: nat)
    requires i < N_PARAM
    ensures 0 < MenuIntegers(i) < 0x100 && MenuFraction(i) < 0x100
    ensures Width(MenuIntegers(i), MenuFraction(i)) + |Row(i).unit| == 6
    ensures forall k :: 0 <= k < |Row(i).unit| ==> Row(i).unit[k] != '\0'
    ensures Row(i).max < Pow10(MenuIntegers(i) + MenuFraction(i))
  {
    assert Pow10(3) == 1000;
  }

  /** A value inside parameter `i`'s range shows in the menu field as its
      own digits: the field reads back as the value. */
  lemma MenuValueReadsBack(i: nat, v: int)
    requires i < N_PARAM && InRange(i, v)
    ensures 0 <= v && 0 < MenuIntegers(i)
    ensures Value(Field(v, MenuIntegers(i), MenuFraction(i))) == v
  {
    RowFacts(i);
    MenuFieldFits(i);
    FieldReadsBack(v, MenuIntegers(i), MenuFraction(i));
  }

  /** The `while (unit[nU++]);` loop of `writeMenuLine`: the length of a
      string up to its first NUL. */
  method StrLen(str: seq<char>) returns (n: nat)
    ensures n <= |str|
    ensures forall k :: 0 <= k < n ==> str[k] != '\0'
    ensures n < |str| ==> str[n] == '\0'
  {
    n := 0;
    while n < |str| && str[n] != '\0'
      invariant n <= |str|
      invariant forall k :: 0 <= k < n ==> str[k] != '\0'
    {
      n := n + 1;
    }
  }
}
