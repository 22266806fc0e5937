/**
 * The mock daily series: one record per day of the selected range, with
 * sales, transactions and a unit price drawn at random and the revenue and
 * AOV derived from them.
 *
 * The three `Math.random()` draws of each day are a parameter, and so is
 * the "yyyy-MM-dd" label of the i-th day after the start date, which the
 * source obtains from date arithmetic and a formatting library.
 */
module Daily {
  import opened Metrics

  /** The three draws of one day, each meant to lie in [0, 1). */
  datatype Draw = Draw(salesRoll: real, transactionsRoll: real, priceRoll: real)

  predicate Uniform(d: Draw)
  {
    && 0.0 <= d.salesRoll < 1.0
    && 0.0 <= d.transactionsRoll < 1.0
    && 0.0 <= d.priceRoll < 1.0
  }

  /**
   * One day's record: sales in 50..149, transactions in 20..69, revenue at
   * a unit price in [5, 15), and the AOV with its divide-by-zero guard,
   * which never fires since there are at least 20 transactions.
   */
  function DailyRecord(date: string, d: Draw): (r: Record)
    ensures r.date == date
    ensures r.aov == Aov(r.revenue, r.transactions)
    ensures Uniform(d) ==> 50 <= r.sales <= 149 && 20 <= r.transactions <= 69
    ensures Uniform(d) ==> 5.0 * r.sales as real <= r.revenue < 15.0 * r.sales as real
    ensures Uniform(d) ==> r.aov == r.revenue / r.transactions as real
  {
    var sales := (d.salesRoll * 100.0).Floor + 50;
    var transactions := (d.transactionsRoll * 50.0).Floor + 20;
    var price := d.priceRoll * 10.0 + 5.0;
    var revenue := sales as real * price;
    var r := Record(date, sales, transactions, revenue, Aov(revenue, transactions));
    if Uniform(d) then
      UniformRecordBounds(d, r.sales, price, r.revenue);
      r
    else
      r
  }

  lemma UniformRecordBounds(d: Draw, sales: int, price: real, revenue: real)
    requires Uniform(d)
    requires sales == (d.salesRoll * 100.0).Floor + 50
    requires price == d.priceRoll * 10.0 + 5.0
    requires revenue == sales as real * price
    ensures 5.0 * sales as real <= revenue
    ensures revenue < 15.0 * sales as real
  {
    FloorNonNegative(d.salesRoll * 100.0);
    RevenueBounds(sales as real, price, revenue);
  }

  lemma FloorNonNegative(x: real)
    requires 0.0 <= x
    ensures 0 <= x.Floor
  {
  }

  /** A positive quantity at a unit price in [5, 15) costs between 5 and 15 times the quantity. */
  lemma RevenueBounds(quantity: real, price: real, revenue: real)
    requires quantity > 0.0 && 5.0 <= price < 15.0
    requires revenue == quantity * price
    ensures 5.0 * quantity <= revenue < 15.0 * quantity
  {
    Distribute(quantity, price);
    MulPositive(quantity, price - 5.0, 15.0 - price);
  }

  lemma Distribute(q: real, p: real)
    ensures q * (p - 5.0) == q * p - 5.0 * q
    ensures q * (15.0 - p) == 15.0 * q - q * p
  {
  }

  lemma MulPositive(q: real, a: real, b: real)
    requires q > 0.0 && a >= 0.0 && b > 0.0
    ensures q * a >= 0.0 && q * b > 0.0
  {
  }

  /**
   * The generator loop: exactly `days` records when `days` is positive and
   * none otherwise, the i-th built from the i-th day's label and draws.
   */
  method GenerateDailyData(days: int, dayLabel: nat -> string, draws: nat -> Draw)
    returns (data: seq<Record>)
    ensures |data| == if days > 0 then days else 0
    ensures forall i :: 0 <= i < |data| ==> data[i] == DailyRecord(dayLabel(i), draws(i))
  {
    data := [];
    var i := 0;
    while i < days
      invariant 0 <= i <= if days > 0 then days else 0
      invariant |data| == i
      invariant forall k :: 0 <= k < i ==> data[k] == DailyRecord(dayLabel(k), draws(k))
    {
      data := data + [DailyRecord(dayLabel(i), draws(i))];
      i := i + 1;
    }
  }

  /** Every record has at least 20 transactions, as every generated one does. */
  ghost predicate Plausible(daily: seq<Record>)
  {
    forall r :: r in daily ==> r.transactions >= 20
  }

  /** With uniform draws, the generated series is plausible. */
  lemma GeneratedIsPlausible(data: seq<Record>, dayLabel: nat -> string, draws: nat -> Draw)
    requires forall i :: 0 <= i < |data| ==> data[i] == DailyRecord(dayLabel(i), draws(i))
    requires forall i: nat :: Uniform(draws(i))
    ensures Plausible(data)
  {
    forall i | 0 <= i < |data|
      ensures data[i].transactions >= 20
    {
      assert Uniform(draws(i));
    }
  }
}
