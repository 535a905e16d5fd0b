/** What the cell promises across several of its operations: the kind
    predicates partition the cells, constructors and strict reads agree,
    the coercions compose as their conversion rules say, and the rendering
    is readable back. */
module CellProperties {
  import Decimal
  import opened MB

  /** Exactly one of `isCoil`, `isReg` and `isVal` holds of any cell. */
  lemma ExactlyOneKind(c: Cell)
    ensures c.IsCoil() || c.IsReg() || c.IsVal()
    ensures !(c.IsCoil() && c.IsReg())
    ensures !(c.IsCoil() && c.IsVal())
    ensures !(c.IsReg() && c.IsVal())
  {
  }

  /** A strict read succeeds exactly for the cell's own kind, and then it
      returns what the cell was built from; the other two fail. */
  lemma StrictReadsOfBuiltCells(reg: U16, val: U8, coil: bool)
    ensures Reg(reg).GetReg() == Success(reg)
    ensures Reg(reg).GetCoil() == Failure(BadVariantAccess)
    ensures Reg(reg).GetVal() == Failure(BadVariantAccess)
    ensures Val(val).GetVal() == Success(val)
    ensures Val(val).GetReg() == Failure(BadVariantAccess)
    ensures Val(val).GetCoil() == Failure(BadVariantAccess)
    ensures Coil(coil).GetCoil() == Success(coil)
    ensures Coil(coil).GetReg() == Failure(BadVariantAccess)
    ensures Coil(coil).GetVal() == Failure(BadVariantAccess)
  {
  }

  /** A strict read succeeds exactly when the coercing accessor of the same
      kind would leave the cell as it is, and then both read the same value. */
  lemma StrictReadIffCoercionIsIdentity(c: Cell)
    ensures c.GetCoil().Success? <==> c.AsCoil() == c
    ensures c.GetReg().Success? <==> c.AsReg() == c
    ensures c.GetVal().Success? <==> c.AsVal() == c
    ensures c.GetCoil().Success? ==> c.GetCoil().value == c.AsCoil().b
    ensures c.GetReg().Success? ==> c.GetReg().value == c.AsReg().r
    ensures c.GetVal().Success? ==> c.GetVal().value == c.AsVal().v
  {
  }

  /** Coercing to the kind a cell already has changes nothing, so a second
      coercion to the same kind is the first one. */
  lemma CoercionIdempotent(c: Cell)
    ensures c.AsCoil().AsCoil() == c.AsCoil()
    ensures c.AsReg().AsReg() == c.AsReg()
    ensures c.AsVal().AsVal() == c.AsVal()
  {
  }

  /** A coil survives a trip through either integer kind; an 8-bit value
      survives a trip through a register; a register survives a trip
      through an 8-bit value exactly when it is below 256. */
  lemma CoercionRoundTrips(c: Cell)
    ensures c.IsCoil() ==> c.AsReg().AsCoil() == c && c.AsVal().AsCoil() == c
    ensures c.IsVal() ==> c.AsReg().AsVal() == c
    ensures c.IsReg() ==> (c.AsVal().AsReg() == c <==> c.r < 0x100)
  {
  }

  /** What each coercion keeps of the stored number: a register keeps all
      of it, an 8-bit value all of it below 256, a coil only 0 and 1. */
  lemma CoercionKeepsNumber(c: Cell)
    ensures c.AsReg().Number() == c.Number()
    ensures c.AsVal().Number() == c.Number() <==> c.Number() < 0x100
    ensures c.AsCoil().Number() == c.Number() <==> c.Number() <= 1
  {
  }

  /** Going through a coil first collapses every non-zero number to 1. */
  lemma CoilCollapsesToZeroOrOne(c: Cell)
    ensures c.AsCoil().AsReg() == Reg(if c.Number() == 0 then 0 else 1)
    ensures c.AsCoil().AsVal() == Val(if c.Number() == 0 then 0 else 1)
  {
  }

  /** Narrowing truncates to the low 8 bits without any error: 300 becomes 44. */
  lemma NarrowingExample()
    ensures Reg(300).AsVal() == Val(44)
    ensures Reg(0x100).AsVal() == Val(0)
  {
  }

  /** The rendering tells a coil from a number, and among registers and
      values it is determined by, and determines, the stored number. */
  lemma ToStringSeparatesNumbers(c: Cell, d: Cell)
    requires !c.IsCoil() && !d.IsCoil()
    ensures c.ToString() == d.ToString() <==> c.Number() == d.Number()
  {
  }

  /** A coil renders as a word, never as a numeral. */
  lemma ToStringOfCoilIsNotNumeral(c: Cell)
    ensures c.IsCoil() <==> !Decimal.IsNumeral(c.ToString())
  {
  }

  /** A register renders in at most five characters, an 8-bit value in at
      most three. */
  lemma ToStringLength(c: Cell)
    ensures c.IsReg() ==> |c.ToString()| <= 5
    ensures c.IsVal() ==> |c.ToString()| <= 3
  {
    assert Decimal.Pow10(3) == 1000;
    assert Decimal.Pow10(5) == 100000;
    if c.IsReg() {
      Decimal.ToDecimalLength(c.r, 5);
    } else if c.IsVal() {
      Decimal.ToDecimalLength(c.v, 3);
    }
  }

  /** Sample renderings. */
  lemma ToStringExamples()
    ensures Coil(true).ToString() == "true"
    ensures Coil(false).ToString() == "false"
    ensures Reg(42).ToString() == "42"
    ensures Val(7).ToString() == "7"
    ensures Reg(0).ToString() == "0"
  {
  }

  /** A zero register read as a coil gives false and becomes a coil; read
      as a register again it gives 0 and is a register once more. */
  method ZeroRegisterRoundTrip() returns (asCoil: bool, asReg: U16)
    ensures !asCoil && asReg == 0
  {
    var cell := new ModbusCell();
    asCoil := cell.Coil();
    assert cell.value.IsCoil();
    asReg := cell.Reg();
    assert cell.value.IsReg();
  }

  /** A register read as a coil gives true exactly when it is non-zero. */
  method NonZeroRegisterAsCoil(r: U16) returns (asCoil: bool)
    ensures asCoil <==> r != 0
  {
    var cell := ModbusCell.InitReg(r);
    asCoil := cell.Coil();
  }

  /** A register read as an 8-bit value gives its low 8 bits, and the cell
      is then an 8-bit value cell. */
  method NarrowRegister(r: U16) returns (asVal: U8, isVal: bool)
    ensures asVal == r % 0x100 && isVal
  {
    var cell := new ModbusCell.OfReg(r);
    asVal := cell.Val();
    isVal := cell.value.IsVal();
  }

  /** A strict read of the wrong kind fails and leaves the cell's kind as it
      was, where the coercing read of that kind changes it. */
  method StrictVersusCoercing(r: U16) returns (strict: Result<bool>, kept: bool, coerced: bool)
    ensures strict == Failure(BadVariantAccess)
    ensures kept && coerced
  {
    var cell := new ModbusCell.OfReg(r);
    strict := cell.value.GetCoil();
    kept := cell.value.IsReg();
    var _ := cell.Coil();
    coerced := cell.value.IsCoil();
  }
}
