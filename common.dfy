/** Cells of the ledger that may be missing (NaN / NaT in the dataframe). */
module Common {

  /** An optional cell: `None` is a missing value. */
  datatype Option<+T> = None | Some(value: T)

  /** `fillna(0)` on an amount column, and also how pandas' `sum()` treats a missing amount. */
  function OrZero(x: Option<int>): int
  {
    if x.Some? then x.value else 0
  }
}
