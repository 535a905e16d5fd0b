# ModbusCell in Dafny

A model of `MB::ModbusCell` from the Modbus C++ library. A cell is the storage
unit of one Modbus data point. It holds exactly one of three things: a 16-bit
register (`uint16_t`), an 8-bit value (`uint8_t`) or a coil (`bool`). The
source stores it in a `std::variant<uint16_t, uint8_t, bool>`.

- `decimal.dfy`, module `Decimal`: decimal rendering of a natural number,
  standing in for `std::to_string`. `ValueOf` reads a numeral back, and the
  two are proved inverse to each other.
- `modbus_cell.dfy`, module `MB`: the datatype `Cell` is the stored variant,
  with the alternatives in the source's order. The read-only members of the
  source are functions on it: the kind predicates, the strict `const`
  accessors, `toString`, and the conversions that the coercing accessors
  apply. The class `ModbusCell` holds one `Cell` in its field `value`. It
  provides the constructors, the static factories and the coercing
  accessors, which change `value` in place.
- `cell_properties.dfy`, module `CellProperties`: lemmas that relate several
  operations, and four client methods that run fixed scenarios on a
  `ModbusCell` object.

`std::bad_variant_access` becomes `Failure(BadVariantAccess)` of a `Result`.
A coercing accessor returns a reference in C++. Here it returns the value it
leaves in the cell. Writing through that reference (`cell.coil() = b`) is
modelled by `SetCoil`, `SetReg` and `SetVal`.

The class comment at include/MB/modbusCell.hpp:16-17 mentions only coils and
registers. The variant on line 21 also has the 8-bit alternative. The model
follows the code and has all three kinds.

## Model

| member | source | states |
|---|---|---|
| `MB.ModbusCell.constructor` | include/MB/modbusCell.hpp:21-27 | the default cell is a register, and its strict register read gives 0 |
| `MB.ModbusCell.OfReg` | include/MB/modbusCell.hpp:33 | a cell built from a `uint16_t` is a register, and its strict register read gives that number |
| `MB.ModbusCell.OfCoil` | include/MB/modbusCell.hpp:39 | a cell built from a `bool` is a coil, and its strict coil read gives that boolean |
| `MB.ModbusCell.OfVal` | include/MB/modbusCell.hpp:41 | a cell built from a `uint8_t` is an 8-bit value cell, and its strict value read gives that number |
| `MB.ModbusCell.InitReg` | include/MB/modbusCell.hpp:52-54 | `initReg` returns a new cell whose strict register read gives its argument, the same cell as the register constructor |
| `MB.ModbusCell.InitCoil` | include/MB/modbusCell.hpp:61-63 | `initCoil` returns a new cell whose strict coil read gives its argument, the same cell as the coil constructor |
| `MB.ModbusCell.InitVal` | include/MB/modbusCell.hpp:65-67 | `initVal` returns a new cell whose strict value read gives its argument, the same cell as the 8-bit constructor |
| `MB.Cell.IsCoil` | include/MB/modbusCell.hpp:73-75 | `isCoil` holds exactly when the cell is neither a register nor a value |
| `MB.Cell.IsReg` | include/MB/modbusCell.hpp:81-83 | `isReg` holds exactly when the cell is neither a value nor a coil |
| `MB.Cell.IsVal` | include/MB/modbusCell.hpp:85-87 | `isVal` holds exactly when the cell is neither a register nor a coil |
| `CellProperties.ExactlyOneKind` | include/MB/modbusCell.hpp:73-87 | exactly one of `isCoil`, `isReg` and `isVal` holds for any cell |
| `MB.Cell.Number` | include/MB/modbusCell.hpp:95-117 | the number a `static_cast` to an integer type reads from the stored value: the register itself, the 8-bit value itself (below 2^8), and 1 or 0 for a true or false coil; always below 2^16 |
| `MB.Cell.AsCoil` | include/MB/modbusCell.hpp:93-99 | after `coil()` the cell is a coil that is false exactly when the stored number was 0; a coil cell is unchanged |
| `MB.Cell.AsReg` | include/MB/modbusCell.hpp:105-111 | after `reg()` the cell is a register holding the stored number (coil false/true as 0/1, a value widened); a register cell is unchanged |
| `MB.Cell.AsVal` | include/MB/modbusCell.hpp:113-119 | after `val()` the cell is a value cell holding the stored number modulo 256 (coil as 0/1), with no error; a value cell is unchanged |
| `MB.ModbusCell.Coil` | include/MB/modbusCell.hpp:93-99 | the non-const `coil()` replaces the cell by its coil coercion and returns the coil now stored |
| `MB.ModbusCell.Reg` | include/MB/modbusCell.hpp:105-111 | the non-const `reg()` replaces the cell by its register coercion and returns the register now stored |
| `MB.ModbusCell.Val` | include/MB/modbusCell.hpp:113-119 | the non-const `val()` replaces the cell by its 8-bit coercion and returns the value now stored |
| `MB.ModbusCell.SetCoil` | include/MB/modbusCell.hpp:93-99 | assigning through the reference `coil()` returns leaves a coil cell holding the assigned boolean |
| `MB.ModbusCell.SetReg` | include/MB/modbusCell.hpp:105-111 | assigning through the reference `reg()` returns leaves a register cell holding the assigned number |
| `MB.ModbusCell.SetVal` | include/MB/modbusCell.hpp:113-119 | assigning through the reference `val()` returns leaves a value cell holding the assigned number |
| `MB.Cell.GetCoil` | include/MB/modbusCell.hpp:121-126 | the const `coil()` succeeds exactly on a coil cell, returning the stored boolean, and otherwise fails with `bad_variant_access` |
| `MB.Cell.GetReg` | include/MB/modbusCell.hpp:128-135 | the const `reg()` succeeds exactly on a register cell, returning the stored number, and otherwise fails with `bad_variant_access` |
| `MB.Cell.GetVal` | include/MB/modbusCell.hpp:137-139 | the const `val()` succeeds exactly on a value cell, returning the stored number, and otherwise fails with `bad_variant_access` |
| `CellProperties.StrictReadsOfBuiltCells` | include/MB/modbusCell.hpp:33-41 | a cell of each kind gives back its argument through the strict read of its kind, and both other strict reads fail |
| `CellProperties.StrictReadIffCoercionIsIdentity` | include/MB/modbusCell.hpp:93-139 | a strict read succeeds exactly when the coercing accessor of that kind would not change the cell, and then both read the same value |
| `CellProperties.CoercionIdempotent` | include/MB/modbusCell.hpp:93-119 | coercing twice to the same kind is the same as coercing once |
| `CellProperties.CoercionRoundTrips` | include/MB/modbusCell.hpp:93-119 | a coil survives a trip through a register or a value; a value survives a trip through a register; a register survives a trip through a value exactly when it is below 256 |
| `CellProperties.CoercionKeepsNumber` | include/MB/modbusCell.hpp:93-119 | the register coercion keeps the stored number, the value coercion keeps it exactly when it is below 256, and the coil coercion exactly when it is 0 or 1 |
| `CellProperties.CoilCollapsesToZeroOrOne` | include/MB/modbusCell.hpp:93-119 | a coil coercion followed by a register or value coercion gives 0 for a zero number and 1 for any other |
| `CellProperties.NarrowingExample` | include/MB/modbusCell.hpp:116-118 | register 300 narrows to value 44, and register 256 to value 0 |
| `MB.Cell.ToString` | include/MB/modbusCell.hpp:145-147 | `toString` is total; a coil renders as "true" or "false" according to its value; a register or value renders as a well-formed decimal numeral that reads back as its number |
| `Decimal.ToDecimal` | include/MB/modbusCell.hpp:146 | the decimal text of a number is non-empty, all digits and without leading zeros, and has one digit exactly for numbers below 10 |
| `Decimal.ValueOfToDecimal` | include/MB/modbusCell.hpp:146 | reading the decimal text of a number gives that number back |
| `Decimal.ToDecimalValueOf` | include/MB/modbusCell.hpp:146 | every well-formed numeral is the decimal text of the number it denotes |
| `Decimal.ToDecimalInjective` | include/MB/modbusCell.hpp:146 | distinct numbers have distinct decimal texts |
| `Decimal.ToDecimalLength` | include/MB/modbusCell.hpp:146 | a number below 10^k has at most k digits, for k at least 1 |
| `CellProperties.ToStringSeparatesNumbers` | include/MB/modbusCell.hpp:145-147 | two register or value cells render the same text exactly when they hold the same number |
| `CellProperties.ToStringOfCoilIsNotNumeral` | include/MB/modbusCell.hpp:145-147 | a cell renders as a numeral exactly when it is not a coil |
| `CellProperties.ToStringLength` | include/MB/modbusCell.hpp:145-147 | a register renders in at most five characters, a value in at most three |
| `CellProperties.ToStringExamples` | include/MB/modbusCell.hpp:145-147 | sample renderings: coils as "true" and "false", register 42 as "42", value 7 as "7", register 0 as "0" |
| `CellProperties.ZeroRegisterRoundTrip` | include/MB/modbusCell.hpp:93-111 | on a default cell, `coil()` returns false, then `reg()` returns 0 |
| `CellProperties.NonZeroRegisterAsCoil` | include/MB/modbusCell.hpp:93-99 | `coil()` on any register returns true exactly when the register is non-zero |
| `CellProperties.NarrowRegister` | include/MB/modbusCell.hpp:113-119 | `val()` on any register returns its low 8 bits (300 gives 44) and leaves a value cell |
| `CellProperties.StrictVersusCoercing` | include/MB/modbusCell.hpp:93-126 | for any register, a strict coil read fails and leaves a register; the coercing `coil()` then turns it into a coil |

## Left out

- The copy constructor and the copy and move assignments (include/MB/modbusCell.hpp:43-45): they are defaulted value copies with no behaviour of their own.
- Reference semantics: the non-const accessors return a reference into the cell. The model returns the value and gives separate setters for writing through the reference. It does not model a reference kept after a later call changes the kind.
- The exception mechanism: a strict read of the wrong kind returns a `Failure` value instead of throwing.
- `std::to_string` beyond decimal digits of a non-negative number: locale and allocation are not modelled.
- `constexpr`, `[[nodiscard]]` and `noexcept`: annotations with no behaviour to state.
