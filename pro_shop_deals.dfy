// The deals list of the shop (app/components/shop/ProShopDeals.tsx): the days
// left on each deal and the low-stock badge.
module ProShopDeals {
  import opened Js

  /** A deal; ratings and the category colours are left out, prices are in paise. */
  datatype Deal = Deal(
    id: string,
    title: string,
    originalPrice: int,
    discountedPrice: int,
    discountPercentage: int,
    brand: string,
    endDate: string,
    stock: Option<int>)

  const Deals: seq<Deal> := [
    Deal("1", "TaylorMade Stealth 2 Driver", 59999, 49999, 17, "TaylorMade", "2024-04-15", Some(5)),
    Deal("2", "Titleist Pro V1 Golf Balls", 4999, 3999, 20, "Titleist", "2024-04-20", Some(20)),
    Deal("3", "Nike Dri-FIT Golf Polo", 3499, 2499, 29, "Nike", "2024-04-25", Some(12))
  ]

  /** `1000 * 60 * 60 * 24`: milliseconds in a day. */
  const DayMs: int := 86400000

  /** `Math.ceil(x / d)` for a positive divisor: the least n with x <= n * d. */
  function CeilDiv(x: int, d: int): (n: int)
    requires d > 0
    ensures (n - 1) * d < x <= n * d
  {
    var q := x / d;
    assert x == q * d + x % d;
    if x % d == 0 then q else q + 1
  }

  /** A larger dividend never gives a smaller ceiling. */
  lemma CeilDivMonotone(x: int, y: int, d: int)
    requires d > 0 && x <= y
    ensures CeilDiv(x, d) <= CeilDiv(y, d)
  {
  }

  /**
   * `getDaysRemaining`, with the end date and the clock already in
   * milliseconds; `None` is an end date that does not parse, whose NaN
   * fails the `days > 0` test.
   */
  function DaysRemaining(endMs: Option<int>, nowMs: int): (days: int)
    ensures days >= 0
    ensures endMs.None? || endMs.value <= nowMs ==> days == 0
    ensures endMs.Some? && endMs.value > nowMs ==>
      days >= 1 && (days - 1) * DayMs < endMs.value - nowMs <= days * DayMs
  {
    if endMs.None? then 0
    else
      var days := CeilDiv(endMs.value - nowMs, DayMs);
      if days > 0 then days else 0
  }

  /** A later end date never shows fewer days, and a later clock never shows more. */
  lemma DaysRemainingMonotone(a: int, b: int, now: int, later: int)
    requires a <= b && now <= later
    ensures DaysRemaining(Some(a), now) <= DaysRemaining(Some(b), now)
    ensures DaysRemaining(Some(a), later) <= DaysRemaining(Some(a), now)
  {
    CeilDivMonotone(a - now, b - now, DayMs);
    CeilDivMonotone(a - later, a - now, DayMs);
  }

  /** `deal.stock && deal.stock < 10`: a stock of 0 is falsy and shows no badge. */
  predicate ShowsLowStock(d: Deal) {
    d.stock.Some? && d.stock.value != 0 && d.stock.value < 10
  }

  /** Of the listed deals only the driver (five left) carries the badge. */
  lemma LowStockDeals()
    ensures ShowsLowStock(Deals[0]) && !ShowsLowStock(Deals[1]) && !ShowsLowStock(Deals[2])
  {
  }
}
