/**
 * The values that flow between the spreadsheet readers and the coverage engine: delivery
 * times with an explicit "unreachable" in place of `float("inf")`, the validated speed and
 * sales records, and the cells of a table as pandas hands them over.
 */
module Records {

  type Region = string

  /** Warehouse ids are integers (`int(row["warehouse_id"])` in bot/data_io.py). */
  type WarehouseId = int

  /** A strictly positive number of hours: zero and negative times never reach the engine. */
  type PositiveReal = x: real | x > 0.0 witness 1.0

  /** A delivery time; `Unreachable` stands for `float("inf")`. */
  datatype Time = Unreachable | Hours(h: PositiveReal)

  /** Python's `a < b` on two times, where unreachable is `+inf` (so `inf < inf` is false). */
  predicate Before(a: Time, b: Time)
  {
    match a
    case Unreachable => false
    case Hours(x) => b.Unreachable? || x < b.h
  }

  /** `a <= b` in the same order. */
  predicate AtMost(a: Time, b: Time)
  {
    !Before(b, a)
  }

  /** Python's `min(a, b)`: the first argument unless the second is strictly smaller. */
  function Min(a: Time, b: Time): (m: Time)
    ensures AtMost(m, a) && AtMost(m, b)
    ensures m == a || m == b
  {
    if Before(b, a) then b else a
  }

  /** A finite real number or `+inf`; used for weighted average times and their differences. */
  datatype Extended = Infinite | Finite(v: real)

  /** An IEEE-754 double reduced to what the as-written arithmetic can produce. */
  datatype FloatValue = Fin(x: real) | PosInf | NegInf | NaN

  /** One validated row of the speeds table (the dict built at bot/data_io.py:40-48). */
  datatype SpeedRow = SpeedRow(
    regionCode: Region,
    regionName: string,
    warehouseId: WarehouseId,
    warehouseName: string,
    time: Time)

  /** One validated row of the sales table (the dict built at bot/data_io.py:70). */
  datatype SalesRow = SalesRow(regionCode: Region, orders: real)

  /** A table cell as pandas yields it: NaN/None, a number, or a string. */
  datatype Cell = Missing | Num(x: real) | Text(s: string)
}
