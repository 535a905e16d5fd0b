/** The storage unit for one Modbus data point: a cell that holds exactly one
    of a 16-bit register, an 8-bit value or a coil. */
module MB {
  import Decimal

  /** `uint16_t`. */
  type U16 = x: int | 0 <= x < 0x1_0000

  /** `uint8_t`. */
  type U8 = x: int | 0 <= x < 0x100

  /** The only error of the component: a strict read of a kind the cell
      does not hold (`std::bad_variant_access`). */
  datatype Error = BadVariantAccess

  datatype Result<T> = Success(value: T) | Failure(error: Error)

  /** The stored variant, alternatives in the order the source declares them
      (register first, so the default cell is a register). Every read-only
      member of the cell is a function of this value. */
  datatype Cell = Reg(r: U16) | Val(v: U8) | Coil(b: bool)
  {
    /** `isCoil()`: holds exactly when neither other alternative is active. */
    predicate IsCoil()
      ensures IsCoil() <==> !Reg? && !Val?
    {
      Coil?
    }

    /** `isReg()`: holds exactly when neither other alternative is active. */
    predicate IsReg()
      ensures IsReg() <==> !Val? && !Coil?
    {
      Reg?
    }

    /** `isVal()`: holds exactly when neither other alternative is active. */
    predicate IsVal()
      ensures IsVal() <==> !Reg? && !Coil?
    {
      Val?
    }

    /** The stored value read as an unsigned number, with a coil as 0 or 1:
        what `static_cast` to an integer type yields before any truncation. */
    function Number(): (n: nat)
      ensures n < 0x1_0000
      ensures Reg? ==> n == r
      ensures Val? ==> n == v && n < 0x100
      ensures Coil? ==> (n == 1 <==> b) && (n == 0 <==> !b)
    {
      match this
      case Reg(x) => x
      case Val(x) => x
      case Coil(x) => if x then 1 else 0
    }

    /** The cell the non-const `coil()` leaves behind: a coil that is false
        exactly when the stored number was 0. */
    function AsCoil(): (c: Cell)
      ensures c.IsCoil()
      ensures c.b <==> Number() != 0
      ensures IsCoil() ==> c == this
    {
      match this
      case Reg(x) => Coil(x != 0)
      case Val(x) => Coil(x != 0)
      case Coil(_) => this
    }

    /** The cell the non-const `reg()` leaves behind: a register holding the
        stored number, a coil read as 0 or 1 and a value widened. */
    function AsReg(): (c: Cell)
      ensures c.IsReg()
      ensures c.r == Number()
      ensures IsReg() ==> c == this
    {
      match this
      case Reg(_) => this
      case Val(x) => Reg(x)
      case Coil(x) => Reg(if x then 1 else 0)
    }

    /** The cell the non-const `val()` leaves behind: an 8-bit value holding
        the stored number truncated to its low 8 bits, without any error. */
    function AsVal(): (c: Cell)
      ensures c.IsVal()
      ensures c.v == Number() % 0x100
      ensures IsVal() ==> c == this
    {
      match this
      case Reg(x) => Val(x % 0x100)
      case Val(_) => this
      case Coil(x) => Val(if x then 1 else 0)
    }

    /** Const `coil()`: the coil, or a mismatch for any other kind. */
    function GetCoil(): (res: Result<bool>)
      ensures res.Success? <==> IsCoil()
      ensures res.Success? ==> this == Coil(res.value)
      ensures res.Failure? ==> res.error == BadVariantAccess
    {
      if Coil? then Success(b) else Failure(BadVariantAccess)
    }

    /** Const `reg()`: the register, or a mismatch for any other kind. */
    function GetReg(): (res: Result<U16>)
      ensures res.Success? <==> IsReg()
      ensures res.Success? ==> this == Reg(res.value)
      ensures res.Failure? ==> res.error == BadVariantAccess
    {
      if Reg? then Success(r) else Failure(BadVariantAccess)
    }

    /** Const `val()`: the 8-bit value, or a mismatch for any other kind. */
    function GetVal(): (res: Result<U8>)
      ensures res.Success? <==> IsVal()
      ensures res.Success? ==> this == Val(res.value)
      ensures res.Failure? ==> res.error == BadVariantAccess
    {
      if Val? then Success(v) else Failure(BadVariantAccess)
    }

    /** `toString()`: a coil as the word "true" or "false", a register or a
        value as the decimal numeral of its number. */
    function ToString(): (s: string)
      ensures IsCoil() ==> (s == "true" || s == "false") && (s == "true" <==> b)
      ensures !IsCoil() ==> Decimal.IsNumeral(s) && Decimal.ValueOf(s) == Number()
    {
      if IsCoil() then
        (if b then "true" else "false")
      else if IsReg() then
        Decimal.ValueOfToDecimal(r);
        Decimal.ToDecimal(r)
      else
        Decimal.ValueOfToDecimal(v);
        Decimal.ToDecimal(v)
    }
  }

  /** A cell object. Its constructors and factories are the source's; the
      coercing accessors change the active kind in place. A caller writing
      through the reference they return is `SetCoil`, `SetReg` or `SetVal`. */
  class ModbusCell {
    var value: Cell

    /** The default cell is a register holding 0. */
    constructor ()
      ensures value.IsReg() && value.GetReg() == Success(0)
    {
      value := Cell.Reg(0);
    }

    constructor OfReg(reg: U16)
      ensures value.IsReg() && value.GetReg() == Success(reg)
    {
      value := Cell.Reg(reg);
    }

    constructor OfCoil(coil: bool)
      ensures value.IsCoil() && value.GetCoil() == Success(coil)
    {
      value := Cell.Coil(coil);
    }

    constructor OfVal(val: U8)
      ensures value.IsVal() && value.GetVal() == Success(val)
    {
      value := Cell.Val(val);
    }

    /** `initReg`: the same cell as the register constructor. */
    static method InitReg(reg: U16) returns (cell: ModbusCell)
      ensures fresh(cell)
      ensures cell.value.GetReg() == Success(reg)
    {
      cell := new ModbusCell.OfReg(reg);
    }

    /** `initCoil`: the same cell as the coil constructor. */
    static method InitCoil(coil: bool) returns (cell: ModbusCell)
      ensures fresh(cell)
      ensures cell.value.GetCoil() == Success(coil)
    {
      cell := new ModbusCell.OfCoil(coil);
    }

    /** `initVal`: the same cell as the 8-bit value constructor. */
    static method InitVal(val: U8) returns (cell: ModbusCell)
      ensures fresh(cell)
      ensures cell.value.GetVal() == Success(val)
    {
      cell := new ModbusCell.OfVal(val);
    }

    /** Non-const `coil()`: turns the cell into a coil and reads it. */
    method Coil() returns (coil: bool)
      modifies this
      ensures value == old(value).AsCoil()
      ensures value.GetCoil() == Success(coil)
    {
      if value.IsReg() {
        value := Cell.Coil(value.r != 0);
      } else if value.IsVal() {
        value := Cell.Coil(value.v != 0);
      }
      coil := value.b;
    }

    /** Non-const `reg()`: turns the cell into a register and reads it. */
    method Reg() returns (reg: U16)
      modifies this
      ensures value == old(value).AsReg()
      ensures value.GetReg() == Success(reg)
    {
      if value.IsCoil() {
        value := Cell.Reg(if value.b then 1 else 0);
      } else if value.IsVal() {
        value := Cell.Reg(value.v);
      }
      reg := value.r;
    }

    /** Non-const `val()`: turns the cell into an 8-bit value and reads it. */
    method Val() returns (val: U8)
      modifies this
      ensures value == old(value).AsVal()
      ensures value.GetVal() == Success(val)
    {
      if value.IsCoil() {
        value := Cell.Val(if value.b then 1 else 0);
      } else if value.IsReg() {
        value := Cell.Val(value.r % 0x100);
      }
      val := value.v;
    }

    /** `cell.coil() = coil`: coerce, then store through the reference. */
    method SetCoil(coil: bool)
      modifies this
      ensures value.GetCoil() == Success(coil)
    {
      var _ := Coil();
      value := value.(b := coil);
    }

    /** `cell.reg() = reg`: coerce, then store through the reference. */
    method SetReg(reg: U16)
      modifies this
      ensures value.GetReg() == Success(reg)
    {
      var _ := Reg();
      value := value.(r := reg);
    }

    /** `cell.val() = val`: coerce, then store through the reference. */
    method SetVal(val: U8)
      modifies this
      ensures value.GetVal() == Success(val)
    {
      var _ := Val();
      value := value.(v := val);
    }
  }
}
