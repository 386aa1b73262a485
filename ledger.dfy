/** The weekly record both harvest engines emit, the iteration count of
    their `range(1, n + 1)` loops, and the arithmetic helpers they share. */
module Ledger {

  /** One entry of a harvest engine's history: the week number and the
      balances after that week's transaction. `vault` and `spend` are running
      totals; `profit` is the raw gain before the cap is applied and
      `withdrawal` is what was taken out of the pot (0 when nothing was). */
  datatype WeekRecord = WeekRecord(
    week: int,
    pot: real,
    vault: real,
    spend: real,
    profit: real,
    withdrawal: real)

  /** How many iterations `range(1, n + 1)` yields: `n`, and none when `n`
      is zero or negative. Both the week loops and the projection's period
      loop run this many times. */
  function RangeCount(n: int): nat
  {
    if n < 0 then 0 else n
  }

  /** `max(0, x)`: the amount by which a pot exceeds the cap. */
  function Excess(x: real): (e: real)
    ensures e >= 0.0 && e >= x
    ensures e == x || e == 0.0
  {
    if x > 0.0 then x else 0.0
  }

  /** A week's profit on a pot: `pot * weekly_return_rate`. */
  function Profit(pot: real, rate: real): real
  {
    pot * rate
  }

  /** The balances week `k + 1` starts from: the initial value for the first
      week, the previous record's otherwise. */
  function OpeningPot(initialPot: real, h: seq<WeekRecord>, k: nat): real
    requires k <= |h|
  {
    if k == 0 then initialPot else h[k - 1].pot
  }

  function OpeningVault(initialVault: real, h: seq<WeekRecord>, k: nat): real
    requires k <= |h|
  {
    if k == 0 then initialVault else h[k - 1].vault
  }

  function OpeningSpend(initialSpend: real, h: seq<WeekRecord>, k: nat): real
    requires k <= |h|
  {
    if k == 0 then initialSpend else h[k - 1].spend
  }
}
