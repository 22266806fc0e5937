/**
 * The record shape shared by the daily and the monthly series of the
 * dashboard, and the two derived quantities every record carries: its
 * average order value and its month key.
 */
module Metrics {

  /**
   * One row of a series. `date` is a "yyyy-MM-dd" label for a day and a
   * "yyyy-MM" label for a month. Revenue and AOV are exact reals: the
   * source's two-decimal rounding is not modelled.
   */
  datatype Record = Record(date: string, sales: int, transactions: int, revenue: real, aov: real)

  /**
   * Average order value with the divide-by-zero guard: revenue per
   * transaction when there is at least one transaction, and 0 otherwise
   * (the guard is `> 0`, so a negative count also yields 0).
   */
  function Aov(revenue: real, transactions: int): (aov: real)
    ensures transactions > 0 ==> aov * transactions as real == revenue
    ensures transactions <= 0 ==> aov == 0.0
  {
    if transactions > 0 then revenue / transactions as real else 0.0
  }

  /**
   * The month a date label belongs to: its first seven characters, or the
   * whole label when it is shorter, as `substring(0, 7)` behaves.
   */
  function MonthKey(date: string): (key: string)
    ensures key <= date
    ensures |key| == if |date| < 7 then |date| else 7
  {
    if |date| < 7 then date else date[..7]
  }
}
