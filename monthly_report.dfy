/**
 * `analyze_flex_report_monthly` in TOOL/test.py: the closing trades of a Flex
 * report, grouped by `YYYY-MM` month, with per-month realised P&L, commission
 * and trade count, each month's net, and the grand total.
 */
module MonthlyReport {
  import opened Wrappers
  import opened JsonValue
  import opened Seqs
  import opened Text

  /** The attributes of one `<Trade>` element; `trade.get(name)` is `None` for a missing one. */
  type Trade = map<string, string>

  /** Why the report ends in its `except Exception` clause. */
  datatype ReportError =
    | BadNumber    // `float(...)` of an attribute raises ValueError
    | MissingDate  // a counted trade without `dateTime`: `None[:7]` raises TypeError

  /** One month's entry of `monthly_summary`. */
  datatype MonthStats = MonthStats(pnl: real, commission: real, tradeCount: nat)

  /** `float(s)` on an attribute string. */
  function Float(s: string): Option<real>
  {
    ToFloat(Str(s))
  }

  /**
   * `datetime_str[:7].replace('-', '')`, then `f"{k[:4]}-{k[4:6]}"`: the month
   * key of a `YYYY-MM-DD;HHMMSS` or a `YYYYMMDD` date string.
   */
  function MonthKey(dateTime: string): string
  {
    var k := Remove(Take(dateTime, 7), '-');
    Take(k, 4) + "-" + Slice(k, 4, 6)
  }

  /** What the loop does with one trade. */
  datatype Outcome = Skip | Count(month: string, pnl: real, commission: real) | Fail(error: ReportError)

  /** `realized_pl_str and float(realized_pl_str) != 0`, once `float` has succeeded. */
  predicate HasRealizedPnl(t: Trade)
  {
    && "fifoPnlRealized" in t && t["fifoPnlRealized"] != ""
    && Float(t["fifoPnlRealized"]).Some? && Float(t["fifoPnlRealized"]).value != 0.0
  }

  /** `if commission_str: commission = float(commission_str)` raises. */
  predicate BadCommission(t: Trade)
  {
    "ibCommission" in t && t["ibCommission"] != "" && Float(t["ibCommission"]).None?
  }

  /**
   * A trade counts when `fifoPnlRealized` is present, non-empty, and not zero;
   * a missing or empty `ibCommission` is 0. An unparsable P&L or commission,
   * or a counted trade without `dateTime`, raises.
   */
  function Classify(t: Trade): (o: Outcome)
    ensures o.Count? ==> "fifoPnlRealized" in t && Float(t["fifoPnlRealized"]) == Some(o.pnl) && o.pnl != 0.0
    ensures o.Count? ==> "dateTime" in t && o.month == MonthKey(t["dateTime"])
    ensures o.Count? && ("ibCommission" !in t || t["ibCommission"] == "") ==> o.commission == 0.0
    ensures o.Count? && "ibCommission" in t && t["ibCommission"] != "" ==> Float(t["ibCommission"]) == Some(o.commission)
    ensures "fifoPnlRealized" !in t || t["fifoPnlRealized"] == "" ==> o == Skip
    ensures "fifoPnlRealized" in t && Float(t["fifoPnlRealized"]) == Some(0.0) ==> o == Skip
    ensures "fifoPnlRealized" in t && t["fifoPnlRealized"] != "" && Float(t["fifoPnlRealized"]).None? ==> o == Fail(BadNumber)
    ensures HasRealizedPnl(t) && "dateTime" !in t ==> o == Fail(MissingDate)
    ensures HasRealizedPnl(t) && "dateTime" in t && BadCommission(t) ==> o == Fail(BadNumber)
    ensures o.Count? <==> HasRealizedPnl(t) && "dateTime" in t && !BadCommission(t)
  {
    if "fifoPnlRealized" !in t || t["fifoPnlRealized"] == "" then Skip
    else
      var p := Float(t["fifoPnlRealized"]);
      if p.None? then Fail(BadNumber)
      else if p.value == 0.0 then Skip
      else if "dateTime" !in t then Fail(MissingDate)
      else
        var c := if "ibCommission" !in t || t["ibCommission"] == "" then Some(0.0) else Float(t["ibCommission"]);
        if c.None? then Fail(BadNumber) else Count(MonthKey(t["dateTime"]), p.value, c.value)
  }

  /** The three `+=` on the month's entry, which `defaultdict` creates zeroed on first use. */
  function Add(summary: map<string, MonthStats>, month: string, pnl: real, commission: real): (r: map<string, MonthStats>)
    ensures r.Keys == summary.Keys + {month}
    ensures forall k :: k in summary && k != month ==> r[k] == summary[k]
  {
    var s := Get(summary, month, MonthStats(0.0, 0.0, 0));
    summary[month := MonthStats(s.pnl + pnl, s.commission + commission, s.tradeCount + 1)]
  }

  /** What the loop does with each trade, in order. */
  function Outcomes(trades: seq<Trade>): (os: seq<Outcome>)
    ensures |os| == |trades| && forall i :: 0 <= i < |trades| ==> os[i] == Classify(trades[i])
  {
    seq(|trades|, i requires 0 <= i < |trades| => Classify(trades[i]))
  }

  /** `monthly_summary` after the loop, as a value; the first outcome that raises ends it. */
  function Summarize(os: seq<Outcome>): Result<map<string, MonthStats>, ReportError>
  {
    if os == [] then Ok(map[])
    else
      var n := |os| - 1;
      match Summarize(os[..n])
      case Err(e) => Err(e)
      case Ok(summary) => Apply(summary, os[n])
  }

  /** One outcome applied to the summary. */
  function Apply(summary: map<string, MonthStats>, o: Outcome): Result<map<string, MonthStats>, ReportError>
  {
    match o
    case Skip => Ok(summary)
    case Fail(e) => Err(e)
    case Count(month, pnl, commission) => Ok(Add(summary, month, pnl, commission))
  }

  lemma SummarizeSnoc(os: seq<Outcome>, o: Outcome)
    ensures Summarize(os + [o]) ==
      match Summarize(os)
      case Err(e) => Err(e)
      case Ok(summary) => Apply(summary, o)
  {
    assert (os + [o])[..|os|] == os;
  }

  lemma {:induction false} FailurePersists(os: seq<Outcome>, k: nat)
    requires k <= |os| && Summarize(os[..k]).Err?
    ensures Summarize(os) == Summarize(os[..k])
    decreases |os| - k
  {
    if k < |os| {
      assert os[..k + 1][..k] == os[..k];
      FailurePersists(os, k + 1);
    } else {
      assert os[..k] == os;
    }
  }

  /** The three `+=` on the month's entry, one field at a time, after `defaultdict` has created it. */
  method AddTrade(summary: map<string, MonthStats>, month: string, pnl: real, commission: real)
    returns (r: map<string, MonthStats>)
    ensures r == Add(summary, month, pnl, commission)
  {
    r := summary;
    if month !in r {
      r := r[month := MonthStats(0.0, 0.0, 0)];
    }
    r := r[month := r[month].(pnl := r[month].pnl + pnl)];
    r := r[month := r[month].(commission := r[month].commission + commission)];
    r := r[month := r[month].(tradeCount := r[month].tradeCount + 1)];
  }

  /** The loop over `root.findall('.//Trade')`. */
  method SummarizeTrades(trades: seq<Trade>) returns (r: Result<map<string, MonthStats>, ReportError>)
    ensures r == Summarize(Outcomes(trades))
  {
    ghost var os := Outcomes(trades);
    var summary: map<string, MonthStats> := map[];
    for i := 0 to |trades|
      invariant Summarize(os[..i]) == Ok(summary)
    {
      var trade := trades[i];
      assert os[..i + 1] == os[..i] + [os[i]];
      SummarizeSnoc(os[..i], os[i]);
      var realizedStr := Get(trade, "fifoPnlRealized", "");
      if realizedStr != "" {
        var realized := Float(realizedStr);
        if realized.None? {
          // `float(realized_pl_str)` raises ValueError
          FailurePersists(os, i + 1);
          return Err(BadNumber);
        }
        if realized.value != 0.0 {
          if "dateTime" !in trade {
            // `None[:7]` raises TypeError
            FailurePersists(os, i + 1);
            return Err(MissingDate);
          }
          var monthKey := MonthKey(trade["dateTime"]);
          var pnl := realized.value;
          var commission := 0.0;
          var commissionStr := Get(trade, "ibCommission", "");
          if commissionStr != "" {
            var c := Float(commissionStr);
            if c.None? {
              FailurePersists(os, i + 1);
              return Err(BadNumber);
            }
            commission := c.value;
          }
          summary := AddTrade(summary, monthKey, pnl, commission);
        }
      }
    }
    assert os[..|trades|] == os;
    r := Ok(summary);
  }

  // ---------------------------------------------------------------------
  // Reference definitions: sums over the counted trades
  // ---------------------------------------------------------------------

  /** No trade makes the loop raise. */
  predicate NoFailure(os: seq<Outcome>)
  {
    forall i :: 0 <= i < |os| ==> !os[i].Fail?
  }

  predicate InMonth(o: Outcome, month: string)
  {
    o.Count? && o.month == month
  }

  /** Sum of the realised P&L of the counted trades of `month`. */
  function MonthPnl(os: seq<Outcome>, month: string): real
  {
    if os == [] then 0.0
    else
      var n := |os| - 1;
      MonthPnl(os[..n], month) + (if InMonth(os[n], month) then os[n].pnl else 0.0)
  }

  /** Sum of the commission of the counted trades of `month`. */
  function MonthCommission(os: seq<Outcome>, month: string): real
  {
    if os == [] then 0.0
    else
      var n := |os| - 1;
      MonthCommission(os[..n], month) + (if InMonth(os[n], month) then os[n].commission else 0.0)
  }

  /** Number of counted trades of `month`. */
  function MonthCount(os: seq<Outcome>, month: string): nat
  {
    if os == [] then 0
    else
      var n := |os| - 1;
      MonthCount(os[..n], month) + (if InMonth(os[n], month) then 1 else 0)
  }

  /** Sum of `pnl + commission` over every counted trade. */
  function TradesNet(os: seq<Outcome>): real
  {
    if os == [] then 0.0
    else
      var n := |os| - 1;
      TradesNet(os[..n]) + (if os[n].Count? then os[n].pnl + os[n].commission else 0.0)
  }

  // ---------------------------------------------------------------------
  // What the summary promises
  // ---------------------------------------------------------------------

  /** The loop completes exactly when no trade raises. */
  lemma {:induction false} SummarizeSucceeds(os: seq<Outcome>)
    ensures Summarize(os).Ok? <==> NoFailure(os)
  {
    if os != [] {
      var n := |os| - 1;
      SummarizeSucceeds(os[..n]);
      assert forall i :: 0 <= i < n ==> os[..n][i] == os[i];
    }
  }

  /** What `monthly_summary[month]` holds once the loop has seen `os`. */
  predicate MonthEntry(summary: map<string, MonthStats>, os: seq<Outcome>, month: string)
  {
    && (month in summary <==> MonthCount(os, month) >= 1)
    && (month in summary ==>
          summary[month] == MonthStats(MonthPnl(os, month), MonthCommission(os, month), MonthCount(os, month)))
  }

  /** A month with no counted trade has nothing summed for it. */
  lemma {:induction false} NoCountNoSums(os: seq<Outcome>, month: string)
    requires MonthCount(os, month) == 0
    ensures MonthPnl(os, month) == 0.0 && MonthCommission(os, month) == 0.0
  {
    if os != [] {
      NoCountNoSums(os[..|os| - 1], month);
    }
  }

  lemma MonthEntryStep(summary: map<string, MonthStats>, os: seq<Outcome>, o: Outcome, month: string)
    requires MonthEntry(summary, os, month)
    requires Apply(summary, o).Ok?
    ensures MonthEntry(Apply(summary, o).value, os + [o], month)
  {
    var ts := os + [o];
    assert ts[..|ts| - 1] == os;
    assert MonthPnl(ts, month) == MonthPnl(os, month) + (if InMonth(o, month) then o.pnl else 0.0);
    assert MonthCommission(ts, month) == MonthCommission(os, month) + (if InMonth(o, month) then o.commission else 0.0);
    assert MonthCount(ts, month) == MonthCount(os, month) + (if InMonth(o, month) then 1 else 0);
    if month !in summary {
      NoCountNoSums(os, month);
    }
  }

  /**
   * A month is in the summary exactly when some counted trade falls in it,
   * and its P&L, commission and trade count are the sums over those trades.
   */
  lemma {:induction false} SummarizeMeaning(os: seq<Outcome>, month: string)
    requires Summarize(os).Ok?
    ensures MonthEntry(Summarize(os).value, os, month)
  {
    if os != [] {
      var n := |os| - 1;
      SummarizeMeaning(os[..n], month);
      assert os[..n] + [os[n]] == os;
      MonthEntryStep(Summarize(os[..n]).value, os[..n], os[n], month);
    }
  }

  /** Entries exist only for months with a counted trade. */
  lemma TradeCountPositive(os: seq<Outcome>, month: string)
    requires Summarize(os).Ok? && month in Summarize(os).value
    ensures Summarize(os).value[month].tradeCount >= 1
  {
    SummarizeMeaning(os, month);
  }

  /** A trade that is not counted leaves the summary as it was. */
  lemma SkippedTradeChangesNothing(trades: seq<Trade>, t: Trade)
    requires "fifoPnlRealized" !in t || t["fifoPnlRealized"] == "" || Float(t["fifoPnlRealized"]) == Some(0.0)
    ensures Summarize(Outcomes(trades + [t])) == Summarize(Outcomes(trades))
  {
    assert Outcomes(trades + [t]) == Outcomes(trades) + [Skip];
    SummarizeSnoc(Outcomes(trades), Skip);
  }

  /** `YYYY-MM-DD;...`: the key is the first seven characters without the hyphen, re-hyphenated. */
  lemma MonthKeyHyphenated(y: string, m: string, rest: string)
    requires |y| == 4 && |m| == 2 && '-' !in y && '-' !in m
    ensures MonthKey(y + "-" + m + rest) == y + "-" + m
  {
    var a := y + "-" + m + rest;
    var t := y + "-" + m;
    assert a[..7] == t;
    assert Take(a, 7) == t;
    RemoveConcat(y + "-", m, '-');
    RemoveConcat(y, "-", '-');
    RemoveAbsent(y, '-');
    RemoveAbsent(m, '-');
    assert "-"[1..] == "";
    assert Remove("-", '-') == "";
    var k := y + m;
    assert Remove(t, '-') == k;
    assert k[..4] == y && k[4..6] == m;
    assert MonthKey(a) == Take(k, 4) + "-" + Slice(k, 4, 6);
  }

  /** `YYYYMMDD...`: the same key. */
  lemma MonthKeyCompact(y: string, m: string, rest: string)
    requires |y| == 4 && |m| == 2 && '-' !in y && '-' !in m
    ensures MonthKey(y + m + rest) == y + "-" + m
  {
    var b := y + m + rest;
    var tail := Take(rest, 1);
    if rest == [] {
      assert b == y + m + tail;
    } else {
      assert b[..7] == y + m + tail;
    }
    assert Take(b, 7) == y + m + tail;
    RemoveConcat(y + m, tail, '-');
    RemoveAbsent(y + m, '-');
    var k := y + m + Remove(tail, '-');
    assert Remove(Take(b, 7), '-') == k;
    assert k[..4] == y && k[4..6] == m;
  }

  /** Both date layouts give the same `YYYY-MM` key. */
  lemma MonthKeyForms(y: string, m: string, rest1: string, rest2: string)
    requires |y| == 4 && |m| == 2 && '-' !in y && '-' !in m
    ensures MonthKey(y + "-" + m + rest1) == MonthKey(y + m + rest2) == y + "-" + m
  {
    MonthKeyHyphenated(y, m, rest1);
    MonthKeyCompact(y, m, rest2);
  }

  // ---------------------------------------------------------------------
  // The printed table and the grand total
  // ---------------------------------------------------------------------

  /** One printed line: the month, its entry and its net P&L. */
  datatype MonthRow = MonthRow(month: string, stats: MonthStats, net: real)

  /** `data['pnl'] + data['commission']` for every month. */
  function Nets(summary: map<string, MonthStats>): (nets: map<string, real>)
    ensures nets.Keys == summary.Keys
    ensures forall k :: k in summary ==> nets[k] == summary[k].pnl + summary[k].commission
  {
    map k | k in summary :: summary[k].pnl + summary[k].commission
  }

  /** The line printed for `month`. */
  function RowOf(summary: map<string, MonthStats>, month: string): (row: MonthRow)
    requires month in summary
    ensures row.month == month && row.stats == summary[month]
    ensures row.net == summary[month].pnl + summary[month].commission
  {
    MonthRow(month, summary[month], summary[month].pnl + summary[month].commission)
  }

  function MonthRows(summary: map<string, MonthStats>, months: seq<string>): (rows: seq<MonthRow>)
    requires forall k :: k in months ==> k in summary
    ensures |rows| == |months|
    ensures forall i :: 0 <= i < |months| ==> rows[i] == RowOf(summary, months[i])
  {
    seq(|months|, i requires 0 <= i < |months| => RowOf(summary, months[i]))
  }

  lemma RowsStep(summary: map<string, MonthStats>, months: seq<string>, i: nat)
    requires forall k :: k in months ==> k in summary
    requires i < |months|
    ensures SumAt(Nets(summary), months[..i + 1]) == SumAt(Nets(summary), months[..i]) + RowOf(summary, months[i]).net
    ensures MonthRows(summary, months[..i + 1]) == MonthRows(summary, months[..i]) + [RowOf(summary, months[i])]
  {
    assert months[..i + 1][..i] == months[..i];
  }

  /** The printing loop over the months, accumulating `total_net_pl`. */
  method PrintRows(summary: map<string, MonthStats>, months: seq<string>) returns (rows: seq<MonthRow>, total: real)
    requires forall k :: k in months ==> k in summary
    ensures rows == MonthRows(summary, months)
    ensures total == SumAt(Nets(summary), months)
  {
    rows := [];
    total := 0.0;
    for i := 0 to |months|
      invariant rows == MonthRows(summary, months[..i])
      invariant total == SumAt(Nets(summary), months[..i])
    {
      RowsStep(summary, months, i);
      var data := summary[months[i]];
      var row := MonthRow(months[i], data, data.pnl + data.commission);
      assert row == RowOf(summary, months[i]);
      total := total + row.net;
      rows := rows + [row];
    }
    assert months[..|months|] == months;
  }

  /** The table over `sorted(monthly_summary.keys())`: every month once, so the total is the sum of every net. */
  method MonthlyTable(summary: map<string, MonthStats>) returns (rows: seq<MonthRow>, total: real)
    ensures rows == MonthRows(summary, Sorted(summary.Keys))
    ensures total == MapSum(Nets(summary))
  {
    var months := SortedKeys(summary.Keys);
    rows, total := PrintRows(summary, months);
    SortedSumIsMapSum(Nets(summary), months);
  }

  /** The report as a value: the month rows in ascending key order and the grand total. */
  ghost function MonthlyReportOf(trades: seq<Trade>): Result<(seq<MonthRow>, real), ReportError>
  {
    match Summarize(Outcomes(trades))
    case Err(e) => Err(e)
    case Ok(summary) => Ok((MonthRows(summary, Sorted(summary.Keys)), MapSum(Nets(summary))))
  }

  /** `analyze_flex_report_monthly` once the XML is parsed into the trade attribute maps. */
  method AnalyzeFlexReportMonthly(trades: seq<Trade>) returns (r: Result<(seq<MonthRow>, real), ReportError>)
    ensures r == MonthlyReportOf(trades)
  {
    var summary := SummarizeTrades(trades);
    if summary.Err? {
      return Err(summary.error);
    }
    var rows, total := MonthlyTable(summary.value);
    r := Ok((rows, total));
  }

  lemma NetsAdd(prev: map<string, MonthStats>, month: string, pnl: real, commission: real)
    ensures var s := Get(prev, month, MonthStats(0.0, 0.0, 0));
      Nets(Add(prev, month, pnl, commission)) == Nets(prev)[month := s.pnl + pnl + (s.commission + commission)]
  {
  }

  /** The grand total regroups by month the `pnl + commission` of every counted trade. */
  lemma {:induction false} GrandTotal(os: seq<Outcome>)
    requires Summarize(os).Ok?
    ensures MapSum(Nets(Summarize(os).value)) == TradesNet(os)
  {
    if os == [] {
      assert Nets(map[]) == map[];
    } else {
      var n := |os| - 1;
      GrandTotal(os[..n]);
      var prev := Summarize(os[..n]).value;
      var o := os[n];
      if o.Count? {
        var s := Get(prev, o.month, MonthStats(0.0, 0.0, 0));
        NetsAdd(prev, o.month, o.pnl, o.commission);
        MapSumUpdate(Nets(prev), o.month, s.pnl + o.pnl + (s.commission + o.commission));
      }
    }
  }

  /** The printed report: months ascending, each net its P&L plus commission, the total over all counted trades. */
  lemma ReportMeaning(trades: seq<Trade>)
    requires MonthlyReportOf(trades).Ok?
    ensures var (rows, total) := MonthlyReportOf(trades).value;
      && (forall i, j :: 0 <= i < j < |rows| ==> LexLess(rows[i].month, rows[j].month))
      && (forall i :: 0 <= i < |rows| ==> rows[i].net == rows[i].stats.pnl + rows[i].stats.commission && rows[i].stats.tradeCount >= 1)
      && total == TradesNet(Outcomes(trades))
  {
    var os := Outcomes(trades);
    var summary := Summarize(os).value;
    var months := Sorted(summary.Keys);
    forall i | 0 <= i < |months|
      ensures summary[months[i]].tradeCount >= 1
    {
      TradeCountPositive(os, months[i]);
    }
    GrandTotal(os);
  }
}
