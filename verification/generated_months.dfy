/**
 * What the daily generator's value ranges mean for the monthly series:
 * every month aggregated from generated days has at least 20
 * transactions, so the AOV guard of the monthly aggregation never fires.
 */
module GeneratedMonths {
  import opened Metrics
  import opened Daily
  import Monthly

  /** A month with at least one plausible day has at least 20 transactions. */
  lemma {:induction false} MonthTransactionsAtLeast20(daily: seq<Record>, key: string)
    requires Plausible(daily)
    requires key in Monthly.Keys(daily)
    ensures Monthly.TotalFor(daily, key).transactions >= 20
  {
    var n := |daily| - 1;
    var prefix := daily[..n];
    assert daily == prefix + [daily[n]];
    Monthly.KeysSnoc(prefix, daily[n]);
    Monthly.TotalForSnoc(prefix, daily[n], key);
    assert Plausible(prefix) by {
      forall i | 0 <= i < |prefix| ensures prefix[i].transactions >= 20 {
        assert prefix[i] == daily[i];
      }
    }
    NonNegativeTransactions(prefix, key);
    if key in Monthly.Keys(prefix) {
      MonthTransactionsAtLeast20(prefix, key);
    } else {
      assert MonthKey(daily[n].date) == key;
      assert daily[n].transactions >= 20;
    }
  }

  lemma {:induction false} NonNegativeTransactions(daily: seq<Record>, key: string)
    requires Plausible(daily)
    ensures Monthly.TotalFor(daily, key).transactions >= 0
  {
    if |daily| > 0 {
      var n := |daily| - 1;
      var prefix := daily[..n];
      assert daily == prefix + [daily[n]];
      Monthly.TotalForSnoc(prefix, daily[n], key);
      assert Plausible(prefix) by {
        forall i | 0 <= i < |prefix| ensures prefix[i].transactions >= 20 {
          assert prefix[i] == daily[i];
        }
      }
      assert daily[n].transactions >= 20;
      NonNegativeTransactions(prefix, key);
    }
  }

  /** A monthly record built from plausible days has orders, so its AOV guard does not fire. */
  lemma MonthRecordHasOrders(daily: seq<Record>, m: Record)
    requires Plausible(daily)
    requires m.date in Monthly.Keys(daily)
    requires Monthly.Measure(m) == Monthly.TotalFor(daily, m.date)
    requires m.aov == Aov(m.revenue, m.transactions)
    ensures m.transactions >= 20 && m.aov == m.revenue / m.transactions as real
  {
    MonthTransactionsAtLeast20(daily, m.date);
  }

  /**
   * On a plausible daily series the monthly AOV guard never fires: every
   * month has at least 20 transactions and its AOV is its revenue divided
   * by its transactions.
   */
  lemma MonthlyAovOfPlausible(daily: seq<Record>)
    requires Plausible(daily)
    ensures forall i :: 0 <= i < |Monthly.GenerateMonthlyData(daily)| ==>
              var m := Monthly.GenerateMonthlyData(daily)[i];
              m.transactions >= 20 && m.aov == m.revenue / m.transactions as real
  {
    var monthly := Monthly.GenerateMonthlyData(daily);
    forall i | 0 <= i < |monthly|
      ensures monthly[i].transactions >= 20 && monthly[i].aov == monthly[i].revenue / monthly[i].transactions as real
    {
      MonthRecordHasOrders(daily, monthly[i]);
    }
  }
}
