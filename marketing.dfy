/**
 * The records the dashboard works on (src/types/marketing.ts), and the
 * division the source writes at several places without a zero guard.
 *
 * Dates are day numbers (days since 1970-01-01, UTC): the source keeps
 * `YYYY-MM-DD` strings and compares their timestamps, which order the same
 * way. Money is an exact `real`; an order count is an `int`.
 */
module Marketing {

  datatype Option<T> = None | Some(value: T)

  /** `Campaign["status"]`: "active" | "paused" | "completed". */
  datatype Status = Active | Paused | Completed

  /**
   * One day of KPIs. `averageOrderValue` is `None` where JavaScript's
   * division by a zero order count yields NaN or an infinity.
   */
  datatype DailyKPI = DailyKPI(
    id: string,
    date: int,
    sales: real,
    orders: int,
    averageOrderValue: Option<real>,
    productType: string,
    campaignName: string)

  /** A marketing operation; `endDate` is optional. */
  datatype Campaign = Campaign(
    id: string,
    name: string,
    startDate: int,
    endDate: Option<int>,
    status: Status,
    budget: real,
    spent: real,
    revenue: real)

  /** One slice of the product distribution chart. */
  datatype ProductPerformance = ProductPerformance(category: string, sales: real, orders: int)

  /** A value `Math.random()` can return; the mock generators take their draws as parameters. */
  predicate IsDraw(r: real) { 0.0 <= r < 1.0 }

  /** Milliseconds in a day: `1000 * 60 * 60 * 24`. */
  const MsPerDay: int := 86_400_000

  /** `num / den`, with the zero divisor that JavaScript turns into NaN or an infinity made explicit. */
  function Ratio(num: real, den: real): (r: Option<real>)
    ensures r.Some? <==> den != 0.0
    ensures r.Some? ==> r.value * den == num
  {
    if den == 0.0 then None else Some(num / den)
  }

  /** `(num / den) * 100`, undefined for a zero divisor. */
  function Percent(num: real, den: real): (r: Option<real>)
    ensures r.Some? <==> den != 0.0
    ensures r.Some? ==> r.value * den == num * 100.0
  {
    match Ratio(num, den)
    case None => None
    case Some(q) =>
      assert (q * 100.0) * den == (q * den) * 100.0;
      Some(q * 100.0)
  }
}
