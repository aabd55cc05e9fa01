/**
 * `query_and_calculate_pnl_amount` in scripts/test.py, from the four series of
 * the performance response onwards: the length check, the two date-keyed
 * histories, the daily time-weighted return of each date against the previous
 * one, its P&L on the previous date's net asset value, the 30-day window and
 * the printed total.
 */
module DailyPnl {
  import opened Wrappers
  import opened Seqs
  import opened Text
  import opened Calendar

  /** Why the script ends in its `except` clause instead of printing the table. */
  datatype PnlError =
    | LengthMismatch  // the ValueError raised by the length check
    | MissingReturn   // KeyError: a NAV date with no cumulative return
    | ZeroDivision    // over exact reals only: a cumulative return of -1 - 1e-9
    | DateOverflow    // `today - timedelta(days=30)` before 0001-01-01
    | BadDate         // `strptime` rejects a P&L date

  /** The `1e-9` added to every denominator. */
  const Epsilon: real := 0.000000001

  /** `dict(zip(dates, values))` for series the length check has already matched. */
  function History(dates: seq<string>, values: seq<real>): (h: map<string, real>)
    requires |dates| == |values|
    ensures forall d :: d in h <==> d in dates
  {
    if dates == [] then map[]
    else
      var n := |dates| - 1;
      History(dates[..n], values[..n])[dates[n] := values[n]]
  }

  /** A repeated date keeps the value of its last occurrence. */
  lemma {:induction false} HistoryLastWins(dates: seq<string>, values: seq<real>, i: nat)
    requires |dates| == |values| && i < |dates|
    requires dates[i] !in dates[i + 1..]
    ensures History(dates, values)[dates[i]] == values[i]
  {
    var n := |dates| - 1;
    if i < n {
      assert dates[n] in dates[i + 1..];
      assert dates[..n][i + 1..] == dates[i + 1..n];
      assert dates[i + 1..] == dates[i + 1..n] + [dates[n]];
      HistoryLastWins(dates[..n], values[..n], i);
    }
  }

  /**
   * `(1 + today) / (1 + yesterday + 1e-9) - 1` over exact reals; `None` is a zero
   * denominator, which exact reals reach and doubles do not.
   */
  function DailyTwr(today: real, yesterday: real): (r: Option<real>)
    ensures r.Some? <==> 1.0 + yesterday + Epsilon != 0.0
    ensures r.Some? ==> (1.0 + r.value) * (1.0 + yesterday + Epsilon) == 1.0 + today
  {
    var den := 1.0 + yesterday + Epsilon;
    if den == 0.0 then None else Some((1.0 + today) / den - 1.0)
  }

  /** `pnl_amount = daily_twr_value * nav_yesterday`. */
  function PnlAmount(dailyTwr: real, navYesterday: real): real
  {
    dailyTwr * navYesterday
  }

  /** One iteration of the `daily_pnl_amount` loop: today's daily return applied to yesterday's NAV. */
  function Step(pnl: map<string, real>, today: string, yesterday: string,
                nav: map<string, real>, twr: map<string, real>): Result<map<string, real>, PnlError>
    requires yesterday in nav
  {
    if today !in twr || yesterday !in twr then Err(MissingReturn)
    else
      var daily := DailyTwr(twr[today], twr[yesterday]);
      if daily.None? then Err(ZeroDivision) else Ok(pnl[today := PnlAmount(daily.value, nav[yesterday])])
  }

  /** The loop over `range(1, len(sorted_dates))` as a value; the first lookup or division that raises ends it. */
  function PnlSeries(sorted: seq<string>, nav: map<string, real>, twr: map<string, real>): (r: Result<map<string, real>, PnlError>)
    requires forall d :: d in sorted ==> d in nav
    ensures r.Err? ==> r.error == MissingReturn || r.error == ZeroDivision
  {
    if |sorted| <= 1 then Ok(map[])
    else
      var n := |sorted| - 1;
      match PnlSeries(sorted[..n], nav, twr)
      case Err(e) => Err(e)
      case Ok(pnl) => Step(pnl, sorted[n], sorted[n - 1], nav, twr)
  }

  lemma PnlSeriesSnoc(sorted: seq<string>, nav: map<string, real>, twr: map<string, real>, i: nat)
    requires forall d :: d in sorted ==> d in nav
    requires 1 <= i < |sorted|
    requires PnlSeries(sorted[..i], nav, twr).Ok?
    ensures PnlSeries(sorted[..i + 1], nav, twr)
      == Step(PnlSeries(sorted[..i], nav, twr).value, sorted[i], sorted[i - 1], nav, twr)
  {
    assert sorted[..i + 1][..i] == sorted[..i];
  }

  /** Once an iteration raises, the later ones never run. */
  lemma {:induction false} ErrorPersists(sorted: seq<string>, nav: map<string, real>, twr: map<string, real>, k: nat)
    requires forall d :: d in sorted ==> d in nav
    requires k <= |sorted| && PnlSeries(sorted[..k], nav, twr).Err?
    ensures PnlSeries(sorted, nav, twr) == PnlSeries(sorted[..k], nav, twr)
    decreases |sorted| - k
  {
    if k < |sorted| {
      assert sorted[..k + 1][..k] == sorted[..k];
      ErrorPersists(sorted, nav, twr, k + 1);
    } else {
      assert sorted[..k] == sorted;
    }
  }

  /** The loop that fills `daily_pnl_amount`. */
  method DailyPnlAmounts(sorted: seq<string>, nav: map<string, real>, twr: map<string, real>)
    returns (r: Result<map<string, real>, PnlError>)
    requires forall d :: d in sorted ==> d in nav
    ensures r == PnlSeries(sorted, nav, twr)
  {
    var pnl: map<string, real> := map[];
    if |sorted| <= 1 {
      // range(1, len(sorted_dates)) is empty.
      return Ok(pnl);
    }
    var i := 1;
    while i < |sorted|
      invariant 1 <= i <= |sorted|
      invariant PnlSeries(sorted[..i], nav, twr) == Ok(pnl)
    {
      PnlSeriesSnoc(sorted, nav, twr, i);
      var today := sorted[i];
      var yesterday := sorted[i - 1];
      var navYesterday := nav[yesterday];
      if today !in twr || yesterday !in twr {
        ErrorPersists(sorted, nav, twr, i + 1);
        return Err(MissingReturn);
      }
      var daily := DailyTwr(twr[today], twr[yesterday]);
      if daily.None? {
        ErrorPersists(sorted, nav, twr, i + 1);
        return Err(ZeroDivision);
      }
      pnl := pnl[today := PnlAmount(daily.value, navYesterday)];
      i := i + 1;
    }
    assert sorted[..i] == sorted;
    r := Ok(pnl);
  }

  // ---------------------------------------------------------------------
  // What the loop computes
  // ---------------------------------------------------------------------

  /** Every lookup and division the loop makes succeeds. */
  predicate Computable(sorted: seq<string>, twr: map<string, real>)
  {
    |sorted| <= 1
    || forall i :: 0 <= i < |sorted| ==>
         sorted[i] in twr && (i < |sorted| - 1 ==> 1.0 + twr[sorted[i]] + Epsilon != 0.0)
  }

  /** The loop succeeds exactly when every date has a return and no earlier return is exactly -1 - 1e-9. */
  lemma {:induction false} PnlSeriesSucceeds(sorted: seq<string>, nav: map<string, real>, twr: map<string, real>)
    requires forall d :: d in sorted ==> d in nav
    ensures PnlSeries(sorted, nav, twr).Ok? <==> Computable(sorted, twr)
  {
    if |sorted| > 1 {
      var n := |sorted| - 1;
      var init := sorted[..n];
      PnlSeriesSucceeds(init, nav, twr);
      if |init| == 1 {
        assert Computable(init, twr);
      }
      if Computable(sorted, twr) {
        assert forall i :: 0 <= i < |init| ==> init[i] == sorted[i];
        assert Computable(init, twr);
      }
      if PnlSeries(sorted, nav, twr).Ok? && |init| > 1 {
        assert forall i :: 0 <= i < |init| ==> init[i] == sorted[i];
      }
    }
  }

  /** The P&L entry for `today` is its daily return against `yesterday` times yesterday's NAV. */
  predicate Entry(pnl: map<string, real>, today: string, yesterday: string, nav: map<string, real>, twr: map<string, real>)
  {
    && yesterday in nav && today in twr && yesterday in twr
    && DailyTwr(twr[today], twr[yesterday]).Some?
    && today in pnl
    && pnl[today] == DailyTwr(twr[today], twr[yesterday]).value * nav[yesterday]
  }

  lemma EntryKept(pnl: map<string, real>, k: string, v: real, today: string, yesterday: string,
                  nav: map<string, real>, twr: map<string, real>)
    requires Entry(pnl, today, yesterday, nav, twr) && today != k
    ensures Entry(pnl[k := v], today, yesterday, nav, twr)
  {
  }

  /** A successful loop has one entry per date but the earliest. */
  lemma {:induction false} PnlSeriesKeys(sorted: seq<string>, nav: map<string, real>, twr: map<string, real>)
    requires forall d :: d in sorted ==> d in nav
    requires PnlSeries(sorted, nav, twr).Ok?
    ensures sorted == [] ==> PnlSeries(sorted, nav, twr).value == map[]
    ensures sorted != [] ==> forall d :: d in PnlSeries(sorted, nav, twr).value <==> d in sorted[1..]
  {
    if |sorted| > 1 {
      var n := |sorted| - 1;
      var init := sorted[..n];
      PnlSeriesKeys(init, nav, twr);
      assert sorted[1..] == init[1..] + [sorted[n]];
    }
  }

  /**
   * For distinct dates, the entry of each date but the earliest is the daily
   * return at that date times the NAV of the date before it.
   */
  lemma {:induction false} PnlSeriesEntries(sorted: seq<string>, nav: map<string, real>, twr: map<string, real>)
    requires forall d :: d in sorted ==> d in nav
    requires Distinct(sorted)
    requires PnlSeries(sorted, nav, twr).Ok?
    ensures forall i :: 1 <= i < |sorted| ==> Entry(PnlSeries(sorted, nav, twr).value, sorted[i], sorted[i - 1], nav, twr)
  {
    if |sorted| > 1 {
      var n := |sorted| - 1;
      var init := sorted[..n];
      assert Distinct(init);
      PnlSeriesEntries(init, nav, twr);
      var prev := PnlSeries(init, nav, twr).value;
      var v := PnlAmount(DailyTwr(twr[sorted[n]], twr[sorted[n - 1]]).value, nav[sorted[n - 1]]);
      assert PnlSeries(sorted, nav, twr).value == prev[sorted[n] := v];
      forall i | 1 <= i < n
        ensures Entry(prev[sorted[n] := v], sorted[i], sorted[i - 1], nav, twr)
      {
        assert sorted[i] == init[i] && sorted[i - 1] == init[i - 1];
        EntryKept(prev, sorted[n], v, sorted[i], sorted[i - 1], nav, twr);
      }
    }
  }

  /** n distinct dates give n - 1 P&L entries. */
  lemma PnlSeriesCount(sorted: seq<string>, nav: map<string, real>, twr: map<string, real>)
    requires forall d :: d in sorted ==> d in nav
    requires Distinct(sorted) && sorted != []
    requires PnlSeries(sorted, nav, twr).Ok?
    ensures |PnlSeries(sorted, nav, twr).value| == |sorted| - 1
  {
    var pnl := PnlSeries(sorted, nav, twr).value;
    PnlSeriesKeys(sorted, nav, twr);
    var rest := sorted[1..];
    assert Distinct(rest);
    DistinctCard(rest);
    assert pnl.Keys == set x | x in rest;
  }

  // ---------------------------------------------------------------------
  // The 30-day window
  // ---------------------------------------------------------------------

  /** `start_date.date() <= date <= today.date()` with `start_date = today - timedelta(days=30)`, counted in days. */
  predicate InWindow(d: Date, today: Date)
    requires Valid(d) && Valid(today)
  {
    Ordinal(today) - 30 <= Ordinal(d) <= Ordinal(today)
  }

  /** The window is Python's date comparison against the day 30 days before `today`, both ends inclusive. */
  lemma WindowIsDateComparison(d: Date, start: Date, today: Date)
    requires Valid(d) && Valid(start) && Valid(today)
    requires Ordinal(start) == Ordinal(today) - 30
    ensures InWindow(d, today) <==> !Before(d, start) && !Before(today, d)
    ensures InWindow(start, today) && InWindow(today, today)
  {
    OrdinalOrder(d, start);
    OrdinalOrder(today, d);
  }

  /** `filtered_pnl`: the P&L entries dated within the window; a date `strptime` rejects raises. */
  function LastThirtyDays(pnl: map<string, real>, today: Date): (r: Result<map<string, real>, PnlError>)
    requires Valid(today)
    ensures r == Err(DateOverflow) <==> Ordinal(today) <= 30
    ensures r == Err(BadDate) <==> Ordinal(today) > 30 && exists d :: d in pnl && ParseYmd(d).None?
    ensures r.Ok? ==> forall d :: d in r.value <==> d in pnl && InWindow(ParseYmd(d).value, today)
    ensures r.Ok? ==> forall d :: d in r.value ==> r.value[d] == pnl[d]
    ensures r.Err? ==> r.error == DateOverflow || r.error == BadDate
  {
    if Ordinal(today) <= 30 then Err(DateOverflow)
    else if exists d :: d in pnl && ParseYmd(d).None? then Err(BadDate)
    else Ok(map d | d in pnl && InWindow(ParseYmd(d).value, today) :: pnl[d])
  }

  // ---------------------------------------------------------------------
  // The whole calculation
  // ---------------------------------------------------------------------

  /** What is printed: nothing in the window, or the rows in date order and their total. */
  datatype Report = NoRecords | Table(rows: seq<(string, real)>, total: real)

  predicate LengthsMatch(navValues: seq<real>, navDates: seq<string>, cumReturns: seq<real>, twrDates: seq<string>)
  {
    |navValues| == |navDates| && |cumReturns| == |twrDates| && |navDates| == |twrDates|
  }

  function Rows(f: map<string, real>, dates: seq<string>): (rows: seq<(string, real)>)
    requires forall d :: d in dates ==> d in f
    ensures |rows| == |dates|
    ensures forall i :: 0 <= i < |dates| ==> rows[i] == (dates[i], f[dates[i]])
  {
    seq(|dates|, i requires 0 <= i < |dates| => (dates[i], f[dates[i]]))
  }

  /** The calculation as a value, with `sorted` the ascending order of the dates. */
  ghost function PnlReport(navValues: seq<real>, navDates: seq<string>, cumReturns: seq<real>, twrDates: seq<string>, today: Date)
    : (r: Result<Report, PnlError>)
    requires Valid(today)
    ensures r == Err(LengthMismatch) <==> !LengthsMatch(navValues, navDates, cumReturns, twrDates)
  {
    if !LengthsMatch(navValues, navDates, cumReturns, twrDates) then Err(LengthMismatch)
    else
      var nav := History(navDates, navValues);
      var twr := History(twrDates, cumReturns);
      match PnlSeries(Sorted(nav.Keys), nav, twr)
      case Err(e) => Err(e)
      case Ok(pnl) =>
        match LastThirtyDays(pnl, today)
        case Err(e) => Err(e)
        case Ok(f) =>
          if f == map[] then Ok(NoRecords)
          else Ok(Table(Rows(f, Sorted(f.Keys)), MapSum(f)))
  }

  /** The printing loop: one row per date in ascending order, and `total_pnl` accumulated along the way. */
  method TableRows(f: map<string, real>) returns (rows: seq<(string, real)>, total: real)
    ensures rows == Rows(f, Sorted(f.Keys))
    ensures total == MapSum(f)
  {
    var dates := SortedKeys(f.Keys);
    total := 0.0;
    rows := [];
    for i := 0 to |dates|
      invariant total == SumAt(f, dates[..i])
      invariant rows == Rows(f, dates[..i])
    {
      TableStep(f, dates, i);
      total := total + f[dates[i]];
      rows := rows + [(dates[i], f[dates[i]])];
    }
    assert dates[..|dates|] == dates;
    SortedSumIsMapSum(f, dates);
  }

  lemma TableStep(f: map<string, real>, dates: seq<string>, i: nat)
    requires forall d :: d in dates ==> d in f
    requires i < |dates|
    ensures SumAt(f, dates[..i + 1]) == SumAt(f, dates[..i]) + f[dates[i]]
    ensures Rows(f, dates[..i + 1]) == Rows(f, dates[..i]) + [(dates[i], f[dates[i]])]
  {
    assert dates[..i + 1][..i] == dates[..i];
  }

  /** `query_and_calculate_pnl_amount` from the length check to the total; `today` stands for `datetime.now()`. */
  method QueryAndCalculatePnl(navValues: seq<real>, navDates: seq<string>, cumReturns: seq<real>, twrDates: seq<string>, today: Date)
    returns (r: Result<Report, PnlError>)
    requires Valid(today)
    ensures r == PnlReport(navValues, navDates, cumReturns, twrDates, today)
  {
    if !LengthsMatch(navValues, navDates, cumReturns, twrDates) {
      return Err(LengthMismatch);
    }
    var nav := History(navDates, navValues);
    var twr := History(twrDates, cumReturns);
    var sortedDates := SortedKeys(nav.Keys);
    var daily := DailyPnlAmounts(sortedDates, nav, twr);
    if daily.Err? {
      return Err(daily.error);
    }
    var filtered := LastThirtyDays(daily.value, today);
    if filtered.Err? {
      return Err(filtered.error);
    }
    if filtered.value == map[] {
      return Ok(NoRecords);
    }
    var rows, total := TableRows(filtered.value);
    r := Ok(Table(rows, total));
  }

  // ---------------------------------------------------------------------
  // What the printed table promises
  // ---------------------------------------------------------------------

  /** The value column, in row order. */
  function Column(rows: seq<(string, real)>): (c: seq<real>)
    ensures |c| == |rows| && forall i :: 0 <= i < |rows| ==> c[i] == rows[i].1
  {
    seq(|rows|, i requires 0 <= i < |rows| => rows[i].1)
  }

  lemma {:induction false} SumAtColumn(f: map<string, real>, dates: seq<string>)
    requires forall d :: d in dates ==> d in f
    ensures SumAt(f, dates) == Sum(Column(Rows(f, dates)))
  {
    if dates != [] {
      var n := |dates| - 1;
      SumAtColumn(f, dates[..n]);
      assert Column(Rows(f, dates))[..n] == Column(Rows(f, dates[..n]));
    }
  }

  /** The rows of a filtered map come in calendar order. */
  lemma RowsChronological(f: map<string, real>)
    requires forall d :: d in f ==> ParseYmd(d).Some?
    ensures var rows := Rows(f, Sorted(f.Keys));
      forall i, j :: 0 <= i < j < |rows| ==> Ordinal(ParseYmd(rows[i].0).value) < Ordinal(ParseYmd(rows[j].0).value)
  {
    var dates := Sorted(f.Keys);
    forall i, j | 0 <= i < j < |dates|
      ensures Ordinal(ParseYmd(dates[i]).value) < Ordinal(ParseYmd(dates[j]).value)
    {
      SortedIsChronological(dates[i], dates[j]);
    }
  }

  /** The total is the sum of the value column. */
  lemma TotalIsColumnSum(f: map<string, real>)
    ensures MapSum(f) == Sum(Column(Rows(f, Sorted(f.Keys))))
  {
    var dates := Sorted(f.Keys);
    SortedSumIsMapSum(f, dates);
    SumAtColumn(f, dates);
  }

  /** Each row a NAV date within the window, the rows in calendar order, the total their sum. */
  predicate GoodTable(rows: seq<(string, real)>, total: real, navDates: seq<string>, today: Date)
    requires Valid(today)
  {
    && (forall i :: 0 <= i < |rows| ==>
          && rows[i].0 in navDates
          && ParseYmd(rows[i].0).Some?
          && InWindow(ParseYmd(rows[i].0).value, today))
    && (forall i, j :: 0 <= i < j < |rows| ==>
          ParseYmd(rows[i].0).Some? && ParseYmd(rows[j].0).Some? &&
          Ordinal(ParseYmd(rows[i].0).value) < Ordinal(ParseYmd(rows[j].0).value))
    && total == Sum(Column(rows))
  }

  lemma FilteredTable(f: map<string, real>, navDates: seq<string>, today: Date)
    requires Valid(today)
    requires forall d :: d in f ==> d in navDates && ParseYmd(d).Some? && InWindow(ParseYmd(d).value, today)
    ensures GoodTable(Rows(f, Sorted(f.Keys)), MapSum(f), navDates, today)
  {
    RowsChronological(f);
    TotalIsColumnSum(f);
  }

  /**
   * The table lists P&L dates within the window, each a NAV date, in calendar
   * order; the total is the sum of the listed values.
   */
  lemma TableMeaning(navValues: seq<real>, navDates: seq<string>, cumReturns: seq<real>, twrDates: seq<string>, today: Date)
    requires Valid(today)
    requires PnlReport(navValues, navDates, cumReturns, twrDates, today).Ok?
    requires PnlReport(navValues, navDates, cumReturns, twrDates, today).value.Table?
    ensures LengthsMatch(navValues, navDates, cumReturns, twrDates)
    ensures var t := PnlReport(navValues, navDates, cumReturns, twrDates, today).value;
      GoodTable(t.rows, t.total, navDates, today)
  {
    var nav := History(navDates, navValues);
    var twr := History(twrDates, cumReturns);
    var s := Sorted(nav.Keys);
    var pnl := PnlSeries(s, nav, twr).value;
    PnlSeriesKeys(s, nav, twr);
    var f := LastThirtyDays(pnl, today).value;
    assert PnlReport(navValues, navDates, cumReturns, twrDates, today).value == Table(Rows(f, Sorted(f.Keys)), MapSum(f));
    assert forall d :: d in f ==> d in pnl && d in s && d in nav;
    FilteredTable(f, navDates, today);
  }

  /** Sorted, distinct dates: the previous-date pairing of the loop follows the calendar. */
  lemma SortedDatesChronological(s: seq<string>, i: nat)
    requires StrictlySorted(s) && 1 <= i < |s|
    requires ParseYmd(s[i]).Some? && ParseYmd(s[i - 1]).Some?
    ensures Ordinal(ParseYmd(s[i - 1]).value) < Ordinal(ParseYmd(s[i]).value)
  {
    SortedIsChronological(s[i - 1], s[i]);
  }

  /** A `MissingReturn` error names a date without a return. */
  lemma {:induction false} MissingReturnMeans(sorted: seq<string>, nav: map<string, real>, twr: map<string, real>)
    requires forall d :: d in sorted ==> d in nav
    requires PnlSeries(sorted, nav, twr) == Err(MissingReturn)
    ensures exists i :: 0 <= i < |sorted| && sorted[i] !in twr
  {
    var n := |sorted| - 1;
    var init := sorted[..n];
    if PnlSeries(init, nav, twr) == Err(MissingReturn) {
      MissingReturnMeans(init, nav, twr);
      var i :| 0 <= i < |init| && init[i] !in twr;
      assert sorted[i] == init[i];
    } else {
      assert sorted[n] !in twr || sorted[n - 1] !in twr;
    }
  }

  /** When both series use the same dates, no return lookup fails. */
  lemma SameDatesNoMissingReturn(navValues: seq<real>, dates: seq<string>, cumReturns: seq<real>, today: Date)
    requires Valid(today)
    requires |navValues| == |dates| == |cumReturns|
    ensures PnlReport(navValues, dates, cumReturns, dates, today) != Err(MissingReturn)
  {
    var nav := History(dates, navValues);
    var twr := History(dates, cumReturns);
    var s := Sorted(nav.Keys);
    if PnlSeries(s, nav, twr) == Err(MissingReturn) {
      MissingReturnMeans(s, nav, twr);
    }
  }

  /** A NAV date without a return, among two or more NAV dates, ends the calculation in an error. */
  lemma MissingReturnFails(navValues: seq<real>, navDates: seq<string>, cumReturns: seq<real>, twrDates: seq<string>, today: Date, d: string)
    requires Valid(today)
    requires LengthsMatch(navValues, navDates, cumReturns, twrDates)
    requires d in navDates && d !in twrDates
    requires exists e :: e in navDates && e != d
    ensures PnlReport(navValues, navDates, cumReturns, twrDates, today).Err?
  {
    var nav := History(navDates, navValues);
    var twr := History(twrDates, cumReturns);
    var s := Sorted(nav.Keys);
    var e :| e in navDates && e != d;
    assert d in nav && e in nav && d !in twr;
    assert {d, e} <= nav.Keys;
    assert |nav.Keys| >= 2 by {
      assert |{d, e}| == 2;
      SubsetCard({d, e}, nav.Keys);
    }
    PnlSeriesSucceeds(s, nav, twr);
    var k :| 0 <= k < |s| && s[k] == d;
  }

  lemma SubsetCard(a: set<string>, b: set<string>)
    requires a <= b
    ensures |a| <= |b|
  {
    assert b == a + (b - a);
  }
}
