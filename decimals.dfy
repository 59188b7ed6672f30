/** The C# `decimal` type as its parts: the value is significand / 10^scale.
    The scale is kept apart from the value because `decimal.ToString()`
    prints it: 20.0m and 20.00m are equal but read "20.0" and "20.00". */
module Decimals {

  datatype Decimal = Decimal(significand: int, scale: nat)

  /** `default(decimal)`: zero with no fractional digits. */
  const Zero: Decimal := Decimal(0, 0)
}
