/**
 * Monthly aggregation of a daily series: a group-by on the month key that
 * sums sales, transactions and revenue per month, keeps the months in the
 * order their key is first seen (the source collects them in an
 * insertion-ordered Map), and recomputes each month's AOV from its sums.
 *
 * The Map is modelled as an association list of entries. `Accumulate`
 * folds the daily records into it one at a time, as `forEach` does, and
 * `GenerateMonthlyData` emits one record per entry.
 */
module Monthly {
  import opened Wrappers
  import opened Metrics

  /** The running sums the Map keeps for one month. */
  datatype Totals = Totals(sales: int, transactions: int, revenue: real)

  const Zero := Totals(0, 0, 0.0)

  function Plus(a: Totals, b: Totals): Totals
  {
    Totals(a.sales + b.sales, a.transactions + b.transactions, a.revenue + b.revenue)
  }

  /** The summable part of a record. */
  function Measure(r: Record): Totals
  {
    Totals(r.sales, r.transactions, r.revenue)
  }

  /** One entry of the insertion-ordered Map: a month key and its sums. */
  datatype Entry = Entry(key: string, totals: Totals)

  // ---------------------------------------------------------------------
  // Reference definitions, independent of the fold

  /** The month key of every record, in input order. */
  function Keys(daily: seq<Record>): (keys: seq<string>)
    ensures |keys| == |daily|
  {
    if |daily| == 0 then [] else Keys(daily[..|daily| - 1]) + [MonthKey(daily[|daily| - 1].date)]
  }

  lemma {:induction false} EntryKeysIndex(acc: seq<Entry>, i: int)
    requires 0 <= i < |acc|
    ensures EntryKeys(acc)[i] == acc[i].key
  {
    if i < |acc| - 1 {
      EntryKeysIndex(acc[..|acc| - 1], i);
    }
  }

  lemma {:induction false} DatesIndex(rs: seq<Record>, i: int)
    requires 0 <= i < |rs|
    ensures Dates(rs)[i] == rs[i].date
  {
    if i < |rs| - 1 {
      DatesIndex(rs[..|rs| - 1], i);
    }
  }

  /** Updating an entry without changing its key leaves the key list alone. */
  lemma EntryKeysUpdate(acc: seq<Entry>, i0: nat, e: Entry)
    requires i0 < |acc| && e.key == acc[i0].key
    ensures EntryKeys(acc[i0 := e]) == EntryKeys(acc)
  {
    forall i | 0 <= i < |acc|
      ensures EntryKeys(acc[i0 := e])[i] == EntryKeys(acc)[i]
    {
      EntryKeysIndex(acc[i0 := e], i);
      EntryKeysIndex(acc, i);
    }
  }

  lemma {:induction false} KeysIndex(daily: seq<Record>, i: int)
    requires 0 <= i < |daily|
    ensures Keys(daily)[i] == MonthKey(daily[i].date)
  {
    if i < |daily| - 1 {
      KeysIndex(daily[..|daily| - 1], i);
    }
  }

  function EntryKeys(acc: seq<Entry>): (keys: seq<string>)
    ensures |keys| == |acc|
  {
    if |acc| == 0 then [] else EntryKeys(acc[..|acc| - 1]) + [acc[|acc| - 1].key]
  }

  /** The date of every record, in order. */
  function Dates(rs: seq<Record>): (dates: seq<string>)
    ensures |dates| == |rs|
  {
    if |rs| == 0 then [] else Dates(rs[..|rs| - 1]) + [rs[|rs| - 1].date]
  }

  function Measures(rs: seq<Record>): seq<Totals>
  {
    seq(|rs|, i requires 0 <= i < |rs| => Measure(rs[i]))
  }

  function Sum(ts: seq<Totals>): Totals
  {
    if |ts| == 0 then Zero else Plus(Sum(ts[..|ts| - 1]), ts[|ts| - 1])
  }

  /** The sums over exactly those records of `daily` whose month key is `key`. */
  function TotalFor(daily: seq<Record>, key: string): Totals
  {
    if |daily| == 0 then Zero
    else
      var last := daily[|daily| - 1];
      Plus(TotalFor(daily[..|daily| - 1], key), if MonthKey(last.date) == key then Measure(last) else Zero)
  }

  /** Position of the first occurrence of `x` in `xs`. */
  function FirstIndex(xs: seq<string>, x: string): (i: nat)
    requires x in xs
    ensures i < |xs| && xs[i] == x
    ensures forall j :: 0 <= j < i ==> xs[j] != x
  {
    if x in xs[..|xs| - 1] then FirstIndex(xs[..|xs| - 1], x) else |xs| - 1
  }

  /**
   * What the Map holds after visiting `daily`: exactly the month keys that
   * occur in `daily`, each with the sums of its records, ordered by where
   * the key first occurs.
   */
  ghost predicate Summarises(acc: seq<Entry>, daily: seq<Record>)
  {
    && KeysOccur(acc, daily)
    && KeysCovered(acc, daily)
    && SumsMatch(acc, daily)
    && FirstSeenOrder(acc, daily)
  }

  /** Every key of the Map is the month key of some record. */
  ghost predicate KeysOccur(acc: seq<Entry>, daily: seq<Record>)
  {
    forall i :: 0 <= i < |acc| ==> acc[i].key in Keys(daily)
  }

  /** Every month key of a record is a key of the Map. */
  ghost predicate KeysCovered(acc: seq<Entry>, daily: seq<Record>)
  {
    forall k :: k in Keys(daily) ==> k in EntryKeys(acc)
  }

  /** Every entry holds the sums of the records of its month. */
  ghost predicate SumsMatch(acc: seq<Entry>, daily: seq<Record>)
  {
    forall i :: 0 <= i < |acc| ==> acc[i].totals == TotalFor(daily, acc[i].key)
  }

  /** The entries are ordered by where their key first occurs among the records. */
  ghost predicate FirstSeenOrder(acc: seq<Entry>, daily: seq<Record>)
  {
    KeysOccur(acc, daily) &&
    forall i, j :: 0 <= i < j < |acc| ==>
      FirstIndex(Keys(daily), acc[i].key) < FirstIndex(Keys(daily), acc[j].key)
  }

  // ---------------------------------------------------------------------
  // The fold

  /** The position of `key` in the Map, if it is there. */
  function Find(acc: seq<Entry>, key: string): (r: Option<nat>)
    ensures r.Some? ==> r.value < |acc| && acc[r.value].key == key
    ensures r.None? ==> key !in EntryKeys(acc)
  {
    if |acc| == 0 then None
    else if acc[|acc| - 1].key == key then Some(|acc| - 1)
    else
      assert EntryKeys(acc) == EntryKeys(acc[..|acc| - 1]) + [acc[|acc| - 1].key];
      Find(acc[..|acc| - 1], key)
  }

  /**
   * One `forEach` step: a month already in the Map gets the record added to
   * its sums in place; a new month is appended with the record's values.
   */
  function Upsert(acc: seq<Entry>, key: string, item: Record): (upserted: seq<Entry>)
    ensures key in EntryKeys(acc) ==> EntryKeys(upserted) == EntryKeys(acc)
    ensures key !in EntryKeys(acc) ==> EntryKeys(upserted) == EntryKeys(acc) + [key]
  {
    match Find(acc, key)
    case Some(i) =>
      EntryKeysIndex(acc, i);
      AddAt(acc, i, item)
    case None =>
      var upserted := acc + [Entry(key, Measure(item))];
      assert upserted[..|acc|] == acc;
      upserted
  }

  /** The Map after `forEach` has visited every record of `daily`. */
  function Accumulate(daily: seq<Record>): (acc: seq<Entry>)
    ensures |acc| <= |daily|
    ensures forall k :: k in EntryKeys(acc) <==> k in Keys(daily)
  {
    if |daily| == 0 then []
    else
      var prefix := daily[..|daily| - 1];
      var item := daily[|daily| - 1];
      assert daily == prefix + [item];
      KeysSnoc(prefix, item);
      Upsert(Accumulate(prefix), MonthKey(item.date), item)
  }

  /**
   * After all records, the Map holds exactly the month keys that occur,
   * each with the sums of its records, in first-seen order.
   */
  lemma {:induction false} AccumulateSummarises(daily: seq<Record>)
    ensures Summarises(Accumulate(daily), daily)
  {
    if |daily| > 0 {
      var prefix := daily[..|daily| - 1];
      var item := daily[|daily| - 1];
      assert daily == prefix + [item];
      AccumulateSummarises(prefix);
      UpsertStep(Accumulate(prefix), prefix, item);
    }
  }

  /** The monthly record emitted for one Map entry, AOV recomputed from its sums. */
  function Emit(e: Entry): (r: Record)
    ensures r.date == e.key
    ensures Measure(r) == e.totals
    ensures e.totals.transactions > 0 ==> r.aov * r.transactions as real == r.revenue
    ensures e.totals.transactions <= 0 ==> r.aov == 0.0
  {
    Record(e.key, e.totals.sales, e.totals.transactions, e.totals.revenue,
           Aov(e.totals.revenue, e.totals.transactions))
  }

  /**
   * The monthly series: one record per distinct month key of `daily`, in
   * first-seen order, carrying that month's sums and an AOV derived from
   * the summed revenue and transactions.
   */
  function GenerateMonthlyData(daily: seq<Record>): (monthly: seq<Record>)
    ensures forall i :: 0 <= i < |monthly| ==> monthly[i].date in Keys(daily)
    ensures forall k :: k in Keys(daily) ==> k in Dates(monthly)
    ensures forall i, j :: 0 <= i < j < |monthly| ==> monthly[i].date != monthly[j].date
    ensures forall i, j :: 0 <= i < j < |monthly| ==>
              FirstIndex(Keys(daily), monthly[i].date) < FirstIndex(Keys(daily), monthly[j].date)
    ensures forall i :: 0 <= i < |monthly| ==> Measure(monthly[i]) == TotalFor(daily, monthly[i].date)
    ensures forall i :: 0 <= i < |monthly| ==> monthly[i].aov == Aov(monthly[i].revenue, monthly[i].transactions)
  {
    var acc := Accumulate(daily);
    AccumulateSummarises(daily);
    var monthly := seq(|acc|, i requires 0 <= i < |acc| => Emit(acc[i]));
    EmittedSummary(acc, daily, monthly);
    monthly
  }

  // ---------------------------------------------------------------------
  // Lemmas

  /** Extending a sequence does not move the first occurrence of an element already in it. */
  lemma FirstIndexExtend(xs: seq<string>, y: string, x: string)
    requires x in xs
    ensures FirstIndex(xs + [y], x) == FirstIndex(xs, x)
  {
    assert (xs + [y])[..|xs|] == xs;
  }

  /** A key that no record carries has zero sums. */
  lemma {:induction false} TotalForAbsent(daily: seq<Record>, key: string)
    requires key !in Keys(daily)
    ensures TotalFor(daily, key) == Zero
  {
    if |daily| > 0 {
      var prefix := daily[..|daily| - 1];
      assert Keys(daily) == Keys(prefix) + [MonthKey(daily[|daily| - 1].date)];
      TotalForAbsent(prefix, key);
    }
  }

  lemma KeysSnoc(daily: seq<Record>, item: Record)
    ensures Keys(daily + [item]) == Keys(daily) + [MonthKey(item.date)]
    ensures (daily + [item])[..|daily|] == daily
  {
    assert (daily + [item])[..|daily|] == daily;
  }

  /** Appending a record adds it to the sums of its own month and of no other. */
  lemma TotalForSnoc(daily: seq<Record>, item: Record, x: string)
    ensures TotalFor(daily + [item], x)
            == Plus(TotalFor(daily, x), if MonthKey(item.date) == x then Measure(item) else Zero)
  {
    KeysSnoc(daily, item);
  }

  /** The month keys of a summary are pairwise distinct. */
  lemma SummaryKeysDistinct(acc: seq<Entry>, daily: seq<Record>, i: int, j: int)
    requires Summarises(acc, daily)
    requires 0 <= i < |acc| && 0 <= j < |acc| && i != j
    ensures acc[i].key != acc[j].key
  {
    if i < j {
      assert FirstIndex(Keys(daily), acc[i].key) < FirstIndex(Keys(daily), acc[j].key);
    } else {
      assert FirstIndex(Keys(daily), acc[j].key) < FirstIndex(Keys(daily), acc[i].key);
    }
  }

  /** The Map after adding `item` to the entry at `i0`. */
  function AddAt(acc: seq<Entry>, i0: nat, item: Record): (updated: seq<Entry>)
    requires i0 < |acc|
    ensures EntryKeys(updated) == EntryKeys(acc)
    ensures forall i :: 0 <= i < |acc| && i != i0 ==> updated[i] == acc[i]
    ensures updated[i0].totals == Plus(acc[i0].totals, Measure(item))
  {
    var e := Entry(acc[i0].key, Plus(acc[i0].totals, Measure(item)));
    EntryKeysUpdate(acc, i0, e);
    acc[i0 := e]
  }

  lemma AddAtSums(acc: seq<Entry>, daily: seq<Record>, item: Record, i0: nat)
    requires Summarises(acc, daily)
    requires i0 < |acc| && acc[i0].key == MonthKey(item.date)
    ensures SumsMatch(AddAt(acc, i0, item), daily + [item])
  {
    var acc' := AddAt(acc, i0, item);
    forall i | 0 <= i < |acc'|
      ensures acc'[i].totals == TotalFor(daily + [item], acc'[i].key)
    {
      TotalForSnoc(daily, item, acc'[i].key);
      if i != i0 {
        SummaryKeysDistinct(acc, daily, i, i0);
      }
    }
  }

  lemma AddAtOrder(acc: seq<Entry>, daily: seq<Record>, item: Record, i0: nat)
    requires Summarises(acc, daily)
    requires i0 < |acc| && acc[i0].key == MonthKey(item.date)
    ensures KeysOccur(AddAt(acc, i0, item), daily + [item])
    ensures FirstSeenOrder(AddAt(acc, i0, item), daily + [item])
  {
    var acc' := AddAt(acc, i0, item);
    var daily' := daily + [item];
    KeysSnoc(daily, item);
    assert KeysOccur(acc', daily');
    forall i, j | 0 <= i < j < |acc'|
      ensures FirstIndex(Keys(daily'), acc'[i].key) < FirstIndex(Keys(daily'), acc'[j].key)
    {
      FirstIndexExtend(Keys(daily), MonthKey(item.date), acc[i].key);
      FirstIndexExtend(Keys(daily), MonthKey(item.date), acc[j].key);
    }
  }

  /** The step for a month already in the Map. */
  lemma UpsertExisting(acc: seq<Entry>, daily: seq<Record>, item: Record, i0: nat)
    requires Summarises(acc, daily)
    requires i0 < |acc| && acc[i0].key == MonthKey(item.date)
    ensures Summarises(AddAt(acc, i0, item), daily + [item])
  {
    KeysSnoc(daily, item);
    EntryKeysUpdate(acc, i0, AddAt(acc, i0, item)[i0]);
    AddAtSums(acc, daily, item, i0);
    AddAtOrder(acc, daily, item, i0);
  }

  /** The step for a month not yet in the Map. */
  lemma UpsertNew(acc: seq<Entry>, daily: seq<Record>, item: Record)
    requires Summarises(acc, daily)
    requires MonthKey(item.date) !in EntryKeys(acc)
    ensures Summarises(acc + [Entry(MonthKey(item.date), Measure(item))], daily + [item])
  {
    var key := MonthKey(item.date);
    var acc' := acc + [Entry(key, Measure(item))];
    KeysSnoc(daily, item);
    assert acc'[..|acc|] == acc;
    assert EntryKeys(acc') == EntryKeys(acc) + [key];
    AppendSums(acc, daily, item);
    AppendOrder(acc, daily, item);
  }

  lemma AppendSums(acc: seq<Entry>, daily: seq<Record>, item: Record)
    requires Summarises(acc, daily)
    requires MonthKey(item.date) !in EntryKeys(acc)
    ensures SumsMatch(acc + [Entry(MonthKey(item.date), Measure(item))], daily + [item])
  {
    var key := MonthKey(item.date);
    var acc' := acc + [Entry(key, Measure(item))];
    assert key !in Keys(daily);
    TotalForAbsent(daily, key);
    forall i | 0 <= i < |acc'|
      ensures acc'[i].totals == TotalFor(daily + [item], acc'[i].key)
    {
      TotalForSnoc(daily, item, acc'[i].key);
    }
  }

  lemma AppendOrder(acc: seq<Entry>, daily: seq<Record>, item: Record)
    requires Summarises(acc, daily)
    requires MonthKey(item.date) !in EntryKeys(acc)
    ensures KeysOccur(acc + [Entry(MonthKey(item.date), Measure(item))], daily + [item])
    ensures FirstSeenOrder(acc + [Entry(MonthKey(item.date), Measure(item))], daily + [item])
  {
    var key := MonthKey(item.date);
    var daily' := daily + [item];
    var acc' := acc + [Entry(key, Measure(item))];
    KeysSnoc(daily, item);
    assert key !in Keys(daily);
    assert KeysOccur(acc', daily');
    assert FirstIndex(Keys(daily'), key) == |daily|;
    forall i, j | 0 <= i < j < |acc'|
      ensures FirstIndex(Keys(daily'), acc'[i].key) < FirstIndex(Keys(daily'), acc'[j].key)
    {
      FirstIndexExtend(Keys(daily), key, acc[i].key);
      if j < |acc| {
        FirstIndexExtend(Keys(daily), key, acc[j].key);
      }
    }
  }

  /** One `forEach` step keeps the Map a faithful summary of the records seen so far. */
  lemma UpsertStep(acc: seq<Entry>, daily: seq<Record>, item: Record)
    requires Summarises(acc, daily)
    ensures Summarises(Upsert(acc, MonthKey(item.date), item), daily + [item])
  {
    match Find(acc, MonthKey(item.date))
    case Some(i0) => UpsertExisting(acc, daily, item, i0);
    case None => UpsertNew(acc, daily, item);
  }

  /** The records emitted from a summary inherit its keys, sums and order. */
  lemma EmittedSummary(acc: seq<Entry>, daily: seq<Record>, monthly: seq<Record>)
    requires Summarises(acc, daily)
    requires |monthly| == |acc| && forall i :: 0 <= i < |acc| ==> monthly[i] == Emit(acc[i])
    ensures forall i :: 0 <= i < |monthly| ==> monthly[i].date in Keys(daily)
    ensures forall k :: k in Keys(daily) ==> k in Dates(monthly)
    ensures forall i, j :: 0 <= i < j < |monthly| ==> monthly[i].date != monthly[j].date
    ensures forall i, j :: 0 <= i < j < |monthly| ==>
              FirstIndex(Keys(daily), monthly[i].date) < FirstIndex(Keys(daily), monthly[j].date)
    ensures forall i :: 0 <= i < |monthly| ==> Measure(monthly[i]) == TotalFor(daily, monthly[i].date)
  {
    forall k | k in Keys(daily)
      ensures k in Dates(monthly)
    {
      assert k in EntryKeys(acc);
      var i :| 0 <= i < |acc| && EntryKeys(acc)[i] == k;
      EntryKeysIndex(acc, i);
      DatesIndex(monthly, i);
      assert Dates(monthly)[i] == k;
    }
    forall i, j | 0 <= i < j < |monthly|
      ensures monthly[i].date != monthly[j].date
    {
      SummaryKeysDistinct(acc, daily, i, j);
    }
  }

  // ---------------------------------------------------------------------
  // Conservation of the grand totals

  function EntryTotals(acc: seq<Entry>): seq<Totals>
  {
    seq(|acc|, i requires 0 <= i < |acc| => acc[i].totals)
  }

  lemma SumSnoc(ts: seq<Totals>, t: Totals)
    ensures Sum(ts + [t]) == Plus(Sum(ts), t)
  {
    assert (ts + [t])[..|ts|] == ts;
  }

  /** Replacing one summand changes the sum by the difference. */
  lemma {:induction false} SumUpdate(ts: seq<Totals>, i: nat, t: Totals)
    requires i < |ts|
    ensures Plus(Sum(ts[i := t]), ts[i]) == Plus(Sum(ts), t)
  {
    var n := |ts| - 1;
    if i < n {
      assert ts[i := t][..n] == ts[..n][i := t];
      SumUpdate(ts[..n], i, t);
    } else {
      assert ts[i := t][..n] == ts[..n];
    }
  }

  lemma AccumulateUnfold(daily: seq<Record>)
    requires |daily| > 0
    ensures Accumulate(daily)
            == Upsert(Accumulate(daily[..|daily| - 1]), MonthKey(daily[|daily| - 1].date), daily[|daily| - 1])
  {
  }

  lemma MeasuresSnoc(prefix: seq<Record>, item: Record)
    ensures Measures(prefix + [item]) == Measures(prefix) + [Measure(item)]
  {
  }

  /** One `forEach` step adds the record's values to the Map's grand total. */
  lemma UpsertConserves(acc: seq<Entry>, key: string, item: Record)
    ensures Sum(EntryTotals(Upsert(acc, key, item))) == Plus(Sum(EntryTotals(acc)), Measure(item))
  {
    match Find(acc, key)
    case Some(i0) =>
      var e := Entry(key, Plus(acc[i0].totals, Measure(item)));
      assert EntryTotals(acc[i0 := e]) == EntryTotals(acc)[i0 := e.totals];
      SumUpdate(EntryTotals(acc), i0, e.totals);
    case None =>
      var e := Entry(key, Measure(item));
      assert EntryTotals(acc + [e]) == EntryTotals(acc) + [e.totals];
      SumSnoc(EntryTotals(acc), e.totals);
  }

  /** The Map's sums add up to the sums of all records visited. */
  lemma {:induction false} AccumulateConserves(daily: seq<Record>)
    ensures Sum(EntryTotals(Accumulate(daily))) == Sum(Measures(daily))
  {
    if |daily| > 0 {
      var prefix := daily[..|daily| - 1];
      var item := daily[|daily| - 1];
      calc {
        Sum(EntryTotals(Accumulate(daily)));
        { AccumulateUnfold(daily); }
        Sum(EntryTotals(Upsert(Accumulate(prefix), MonthKey(item.date), item)));
        { UpsertConserves(Accumulate(prefix), MonthKey(item.date), item); }
        Plus(Sum(EntryTotals(Accumulate(prefix))), Measure(item));
        { AccumulateConserves(prefix); }
        Plus(Sum(Measures(prefix)), Measure(item));
        { assert daily == prefix + [item]; MeasuresSnoc(prefix, item); SumSnoc(Measures(prefix), Measure(item)); }
        Sum(Measures(daily));
      }
    }
  }

  /**
   * Grand totals are conserved: the monthly series has the same total
   * sales, transactions and revenue as the daily series it summarises.
   */
  lemma MonthlyConservesTotals(daily: seq<Record>)
    ensures Sum(Measures(GenerateMonthlyData(daily))) == Sum(Measures(daily))
  {
    var acc := Accumulate(daily);
    assert Measures(GenerateMonthlyData(daily)) == EntryTotals(acc);
    AccumulateConserves(daily);
  }

  // ---------------------------------------------------------------------
  // Number of months

  function Elements(xs: seq<string>): set<string>
  {
    set x | x in xs
  }

  /** A duplicate-free sequence has as many distinct elements as positions. */
  lemma {:induction false} DistinctCard(xs: seq<string>)
    requires forall i, j :: 0 <= i < j < |xs| ==> xs[i] != xs[j]
    ensures |Elements(xs)| == |xs|
  {
    if |xs| > 0 {
      var n := |xs| - 1;
      assert Elements(xs) == Elements(xs[..n]) + {xs[n]};
      assert xs[n] !in Elements(xs[..n]);
      DistinctCard(xs[..n]);
    }
  }

  /** A sequence has no more distinct elements than positions. */
  lemma {:induction false} CardAtMostLength(xs: seq<string>)
    ensures |Elements(xs)| <= |xs|
  {
    if |xs| > 0 {
      var n := |xs| - 1;
      assert Elements(xs) == Elements(xs[..n]) + {xs[n]};
      CardAtMostLength(xs[..n]);
    }
  }

  /**
   * There is exactly one monthly record per distinct month key of the
   * input, so never more months than days; a range spanning two months
   * yields exactly two.
   */
  lemma MonthCount(daily: seq<Record>)
    ensures |GenerateMonthlyData(daily)| == |Elements(Keys(daily))|
    ensures |GenerateMonthlyData(daily)| <= |daily|
  {
    var monthly := GenerateMonthlyData(daily);
    var dates := Dates(monthly);
    assert Elements(dates) == Elements(Keys(daily)) by {
      forall k | k in dates ensures k in Keys(daily) {
        var i :| 0 <= i < |dates| && dates[i] == k;
        DatesIndex(monthly, i);
      }
    }
    forall i, j | 0 <= i < j < |dates|
      ensures dates[i] != dates[j]
    {
      DatesIndex(monthly, i);
      DatesIndex(monthly, j);
    }
    DistinctCard(dates);
    CardAtMostLength(Keys(daily));
  }

  // ---------------------------------------------------------------------
  // Worked cases

  /** Aggregating no days yields no months. */
  lemma MonthlyOfEmpty()
    ensures GenerateMonthlyData([]) == []
  {
  }

  /**
   * Days that all fall in one month give a single monthly record: that
   * month with the days' sums and the AOV of those sums.
   */
  lemma SingleMonth(daily: seq<Record>, key: string)
    requires |daily| > 0
    requires forall i :: 0 <= i < |daily| ==> MonthKey(daily[i].date) == key
    ensures var monthly := GenerateMonthlyData(daily);
            && |monthly| == 1
            && monthly[0].date == key
            && Measure(monthly[0]) == TotalFor(daily, key)
            && monthly[0].aov == Aov(monthly[0].revenue, monthly[0].transactions)
  {
    var monthly := GenerateMonthlyData(daily);
    KeysIndex(daily, 0);
    assert Elements(Keys(daily)) == {key} by {
      forall k | k in Keys(daily) ensures k == key {
        var i :| 0 <= i < |daily| && Keys(daily)[i] == k;
        KeysIndex(daily, i);
      }
    }
    MonthCount(daily);
    assert monthly[0].date in Keys(daily);
  }

  /**
   * Two days of January 2024 with revenue 100 over 10 transactions and 50
   * over 5 give one month with revenue 150, 15 transactions and AOV 10.
   */
  lemma JanuaryExample()
    ensures GenerateMonthlyData([Record("2024-01-01", 12, 10, 100.0, 10.0),
                                 Record("2024-01-02", 7, 5, 50.0, 10.0)])
            == [Record("2024-01", 19, 15, 150.0, 10.0)]
  {
    var daily := [Record("2024-01-01", 12, 10, 100.0, 10.0), Record("2024-01-02", 7, 5, 50.0, 10.0)];
    assert MonthKey(daily[0].date) == "2024-01";
    assert MonthKey(daily[1].date) == "2024-01";
    SingleMonth(daily, "2024-01");
    assert daily[..1] == [daily[0]];
    assert TotalFor(daily, "2024-01") == Totals(19, 15, 150.0);
  }

  /**
   * The monthly AOV is revenue over transactions of the whole month, not
   * the mean of the daily AOVs: days 100/10 and 2/1 have daily AOVs 10 and
   * 2, whose mean is 6, while the month's AOV is 102/11.
   */
  lemma MonthlyAovIsNotMeanOfDaily()
    ensures var monthly := GenerateMonthlyData([Record("2024-03-01", 20, 10, 100.0, 10.0),
                                                Record("2024-03-02", 1, 1, 2.0, 2.0)]);
            |monthly| == 1 && monthly[0].aov == 102.0 / 11.0 && monthly[0].aov != (10.0 + 2.0) / 2.0
  {
    var daily := [Record("2024-03-01", 20, 10, 100.0, 10.0), Record("2024-03-02", 1, 1, 2.0, 2.0)];
    assert MonthKey(daily[0].date) == "2024-03";
    assert MonthKey(daily[1].date) == "2024-03";
    SingleMonth(daily, "2024-03");
    assert daily[..1] == [daily[0]];
    assert TotalFor(daily, "2024-03") == Totals(21, 11, 102.0);
    var m := GenerateMonthlyData(daily)[0];
    assert m.transactions == 11 && m.revenue == 102.0;
    assert m.aov == 102.0 / 11.0;
  }
}
