/**
 * Multi-account aggregation (`aggregate_portfolio_data` in app/main.py): one
 * summary and one position list built from the per-account records in
 * `all_data`, with positions keyed by `conid`.
 */
module Aggregation {
  import opened Wrappers
  import opened JsonValue
  import opened AccountData
  import opened Seqs

  /** Account ids are whatever truthy JSON value the gateway gave as `accountId`. */
  type AccountId = Json

  /** `all_data`: account id to record (`None` for a fetch that raised), in dict iteration order. */
  type AllData = seq<(AccountId, Option<AccountRecord>)>

  /** The initial `aggregated_summary`. */
  const ZeroSummary := Summary(0.0, 0.0, 0.0, 0.0, Str("USD"))

  /** `data and data.get('summary')`: the records the loop does not skip. */
  predicate Counted(d: Option<AccountRecord>)
  {
    d.Some? && d.value.summary.Some?
  }

  // ---------------------------------------------------------------------
  // Summary: running sums of the four amounts; currency is last-write-wins
  // ---------------------------------------------------------------------

  function AddSummary(acc: Summary, s: Summary): Summary
  {
    Summary(acc.netLiquidation + s.netLiquidation, acc.realizedPnl + s.realizedPnl,
            acc.cash + s.cash, acc.buyingPower + s.buyingPower, s.currency)
  }

  /** `aggregated_summary` after the loop has visited `all`, starting from `acc`. */
  function SummaryFrom(acc: Summary, all: AllData): Summary
  {
    if all == [] then acc
    else
      var prev := SummaryFrom(acc, all[..|all| - 1]);
      var d := all[|all| - 1].1;
      if Counted(d) then AddSummary(prev, d.value.summary.value) else prev
  }

  function SummaryTotal(all: AllData): Summary
  {
    SummaryFrom(ZeroSummary, all)
  }

  // ---------------------------------------------------------------------
  // Positions: the (account, position) lines of the counted accounts, in
  // the order the nested loops visit them
  // ---------------------------------------------------------------------

  datatype Line = Line(account: AccountId, pos: Position)

  function Lines(acct: AccountId, ps: seq<Position>): (r: seq<Line>)
    ensures |r| == |ps|
    ensures forall i :: 0 <= i < |ps| ==> r[i] == Line(acct, ps[i])
  {
    seq(|ps|, i requires 0 <= i < |ps| => Line(acct, ps[i]))
  }

  /** The lines of one `all_data` entry: none for a skipped account. */
  function EntryLines(e: (AccountId, Option<AccountRecord>)): seq<Line>
  {
    if Counted(e.1) then Lines(e.0, e.1.value.positions) else []
  }

  function Flat(all: AllData): seq<Line>
  {
    if all == [] then [] else Flat(all[..|all| - 1]) + EntryLines(all[|all| - 1])
  }

  /** A value Python can use as a dict key (lists and dicts are unhashable). */
  predicate Hashable(v: Json)
  {
    !v.Arr? && !v.Obj?
  }

  /**
   * The line does not make the loop raise: `pos['conid']` exists and is
   * hashable, and `float` accepts `position` and `costBasis` (0 when absent).
   */
  predicate Summable(p: Position)
  {
    && "conid" in p
    && Hashable(p["conid"])
    && ToFloat(Get(p, "position", Num(0.0))).Some?
    && ToFloat(Get(p, "costBasis", Num(0.0))).Some?
  }

  predicate AllSummable(lines: seq<Line>)
  {
    forall i :: 0 <= i < |lines| ==> Summable(lines[i].pos)
  }

  function Qty(p: Position): real
    requires Summable(p)
  {
    ToFloat(Get(p, "position", Num(0.0))).value
  }

  function Basis(p: Position): real
    requires Summable(p)
  {
    ToFloat(Get(p, "costBasis", Num(0.0))).value
  }

  /** One entry of `aggregated_positions`: the first dict seen, the running sums and `holdings_breakdown`. */
  datatype Holding = Holding(first: Position, totalPosition: real, totalCostBasis: real, breakdown: map<AccountId, real>)

  /** `aggregated_positions`: its keys in insertion order and its entries. */
  datatype Book = Book(order: seq<Json>, holdings: map<Json, Holding>)

  ghost predicate WellKeyed(b: Book)
  {
    Distinct(b.order) && forall c :: c in b.holdings <==> c in b.order
  }

  /** One iteration of the inner loop. */
  function AddLine(b: Book, l: Line): Book
    requires Summable(l.pos)
  {
    var c := l.pos["conid"];
    var h := if c in b.holdings then b.holdings[c] else Holding(l.pos, 0.0, 0.0, map[]);
    var order := if c in b.holdings then b.order else b.order + [c];
    Book(order, b.holdings[c := Holding(h.first, h.totalPosition + Qty(l.pos),
                                        h.totalCostBasis + Basis(l.pos), h.breakdown[l.account := Qty(l.pos)])])
  }

  /** `aggregated_positions` after the nested loops have visited `lines`. */
  function Fold(lines: seq<Line>): (b: Book)
    requires AllSummable(lines)
    ensures WellKeyed(b)
  {
    if lines == [] then Book([], map[]) else AddLine(Fold(lines[..|lines| - 1]), lines[|lines| - 1])
  }

  // ---------------------------------------------------------------------
  // Final positions
  // ---------------------------------------------------------------------

  /** `total_cb / total_pos if total_pos != 0 else 0`. */
  function AverageCost(totalPosition: real, totalCostBasis: real): (avg: real)
    ensures totalPosition == 0.0 ==> avg == 0.0
    ensures totalPosition != 0.0 ==> avg * totalPosition == totalCostBasis
  {
    if totalPosition != 0.0 then totalCostBasis / totalPosition else 0.0
  }

  /** An output position: the dict (without `holdings_breakdown`) and `holdings_breakdown`. */
  datatype AggregatedPosition = AggregatedPosition(fields: Position, breakdown: map<AccountId, real>)

  /** Keys the final loop writes over the copied first dict. */
  predicate Overwritten(k: string)
  {
    k in {"position", "costBasis", "avgCost", "total_position", "total_costBasis", "holdings_breakdown"}
  }

  function Finish(h: Holding): AggregatedPosition
  {
    var tp := h.totalPosition;
    var tcb := h.totalCostBasis;
    AggregatedPosition(
      (h.first - {"holdings_breakdown"})["total_position" := Num(tp)]["total_costBasis" := Num(tcb)]
        ["position" := Num(tp)]["costBasis" := Num(tcb)]["avgCost" := Num(AverageCost(tp, tcb))],
      h.breakdown)
  }

  function FinalPositions(b: Book): seq<AggregatedPosition>
    requires WellKeyed(b)
  {
    seq(|b.order|, i requires 0 <= i < |b.order| => Finish(b.holdings[b.order[i]]))
  }

  datatype Portfolio = Portfolio(summary: Summary, positions: seq<AggregatedPosition>)

  /** What `aggregate_portfolio_data(all_data)` returns; `None` when it raises. */
  function Aggregate(all: AllData): Option<Portfolio>
  {
    var lines := Flat(all);
    if AllSummable(lines) then Some(Portfolio(SummaryTotal(all), FinalPositions(Fold(lines)))) else None
  }

  lemma FlatSnoc(all: AllData, e: (AccountId, Option<AccountRecord>))
    ensures Flat(all + [e]) == Flat(all) + EntryLines(e)
  {
    assert (all + [e])[..|all|] == all;
  }

  lemma SummaryFromSnoc(acc: Summary, all: AllData, e: (AccountId, Option<AccountRecord>))
    ensures SummaryFrom(acc, all + [e]) == if Counted(e.1) then AddSummary(SummaryFrom(acc, all), e.1.value.summary.value) else SummaryFrom(acc, all)
  {
    assert (all + [e])[..|all|] == all;
  }

  lemma FoldSnoc(lines: seq<Line>, l: Line)
    requires AllSummable(lines) && Summable(l.pos)
    ensures AllSummable(lines + [l])
    ensures Fold(lines + [l]) == AddLine(Fold(lines), l)
  {
    assert (lines + [l])[..|lines|] == lines;
  }

  lemma {:induction false} FlatConcat(a: AllData, b: AllData)
    ensures Flat(a + b) == Flat(a) + Flat(b)
    decreases |b|
  {
    if b == [] {
      assert a + b == a;
    } else {
      var b' := b[..|b| - 1];
      var e := b[|b| - 1];
      var ab := a + b;
      assert ab[..|ab| - 1] == a + b' && ab[|ab| - 1] == e;
      assert Flat(ab) == Flat(a + b') + EntryLines(e);
      assert Flat(b) == Flat(b') + EntryLines(e);
      FlatConcat(a, b');
    }
  }

  lemma AllSummableConcat(xs: seq<Line>, ys: seq<Line>)
    ensures AllSummable(xs + ys) <==> AllSummable(xs) && AllSummable(ys)
  {
    if AllSummable(xs + ys) {
      forall i | 0 <= i < |xs| ensures Summable(xs[i].pos) { assert (xs + ys)[i] == xs[i]; }
      forall i | 0 <= i < |ys| ensures Summable(ys[i].pos) { assert (xs + ys)[|xs| + i] == ys[i]; }
    }
  }

  /** The method modelling the loops of `aggregate_portfolio_data`: it computes `Aggregate`. */
  method AggregatePortfolioData(all: AllData) returns (r: Option<Portfolio>)
    ensures r == Aggregate(all)
  {
    var summary := ZeroSummary;
    var book := Book([], map[]);
    if all == [] {
      assert FinalPositions(Fold(Flat(all))) == [];
      return Some(Portfolio(summary, []));
    }
    var i := 0;
    while i < |all|
      invariant 0 <= i <= |all|
      invariant AllSummable(Flat(all[..i]))
      invariant summary == SummaryTotal(all[..i])
      invariant book == Fold(Flat(all[..i]))
    {
      if Counted(all[i].1) {
        var ok;
        ok, summary, book := AccumulateAccount(summary, book, all, i);
        if !ok {
          // KeyError, ValueError or TypeError: the exception leaves the function.
          return None;
        }
      } else {
        SkipStep(all, i);
      }
      i := i + 1;
    }
    assert all[..i] == all;
    var finals := FinishPositions(book);
    r := Some(Portfolio(summary, finals));
  }

  /** `continue`: a skipped record changes neither the summary nor the positions. */
  lemma SkipStep(all: AllData, i: nat)
    requires i < |all| && !Counted(all[i].1)
    ensures Flat(all[..i + 1]) == Flat(all[..i])
    ensures SummaryTotal(all[..i + 1]) == SummaryTotal(all[..i])
  {
    assert all[..i + 1] == all[..i] + [all[i]];
    FlatSnoc(all[..i], all[i]);
    SummaryFromSnoc(ZeroSummary, all[..i], all[i]);
    assert Flat(all[..i]) + EntryLines(all[i]) == Flat(all[..i]);
  }

  /** One iteration of the outer loop for a record with a summary; `ok` is false when its positions raise. */
  method AccumulateAccount(summary: Summary, book: Book, all: AllData, i: nat) returns (ok: bool, summary': Summary, book': Book)
    requires i < |all| && Counted(all[i].1)
    requires AllSummable(Flat(all[..i])) && summary == SummaryTotal(all[..i]) && book == Fold(Flat(all[..i]))
    ensures ok ==> AllSummable(Flat(all[..i + 1])) && summary' == SummaryTotal(all[..i + 1]) && book' == Fold(Flat(all[..i + 1]))
    ensures !ok ==> !AllSummable(Flat(all))
  {
    var acct := all[i].0;
    var data := all[i].1;
    AccountStep(all, i);
    var s := data.value.summary.value;
    summary' := Summary(summary.netLiquidation + s.netLiquidation, summary.realizedPnl + s.realizedPnl,
                        summary.cash + s.cash, summary.buyingPower + s.buyingPower, s.currency);
    assert summary' == AddSummary(summary, s);
    ok, book' := MergeAccount(book, acct, data.value.positions, Flat(all[..i]));
    if !ok {
      AccountFails(all, i);
    }
  }

  /** A record whose positions raise makes the whole input raise. */
  lemma AccountFails(all: AllData, i: nat)
    requires i < |all| && Counted(all[i].1)
    requires !AllSummable(Lines(all[i].0, all[i].1.value.positions))
    ensures !AllSummable(Flat(all))
  {
    AccountStep(all, i);
    AllSummableConcat(Flat(all[..i]), Lines(all[i].0, all[i].1.value.positions));
    FailurePropagates(all, i + 1);
  }

  /** The lines and summary after a record with a summary. */
  lemma AccountStep(all: AllData, i: nat)
    requires i < |all| && Counted(all[i].1)
    ensures Flat(all[..i + 1]) == Flat(all[..i]) + Lines(all[i].0, all[i].1.value.positions)
    ensures SummaryTotal(all[..i + 1]) == AddSummary(SummaryTotal(all[..i]), all[i].1.value.summary.value)
  {
    assert all[..i + 1] == all[..i] + [all[i]];
    FlatSnoc(all[..i], all[i]);
    SummaryFromSnoc(ZeroSummary, all[..i], all[i]);
  }

  /** A line that raises in a prefix raises for the whole input. */
  lemma FailurePropagates(all: AllData, n: nat)
    requires n <= |all| && !AllSummable(Flat(all[..n]))
    ensures !AllSummable(Flat(all))
  {
    FlatConcat(all[..n], all[n..]);
    assert all == all[..n] + all[n..];
    AllSummableConcat(Flat(all[..n]), Flat(all[n..]));
  }

  /** The inner loop over one account's positions; `ok` is false when it raises. */
  method MergeAccount(book: Book, acct: AccountId, ps: seq<Position>, ghost before: seq<Line>)
    returns (ok: bool, book': Book)
    requires AllSummable(before) && book == Fold(before)
    ensures ok == AllSummable(Lines(acct, ps))
    ensures ok ==> AllSummable(before + Lines(acct, ps)) && book' == Fold(before + Lines(acct, ps))
  {
    book' := book;
    var j := 0;
    assert before + Lines(acct, ps[..0]) == before;
    while j < |ps|
      invariant 0 <= j <= |ps|
      invariant AllSummable(Lines(acct, ps[..j]))
      invariant AllSummable(before + Lines(acct, ps[..j]))
      invariant book' == Fold(before + Lines(acct, ps[..j]))
    {
      var pos := ps[j];
      if !Summable(pos) {
        assert Lines(acct, ps)[j] == Line(acct, pos);
        return false, book';
      }
      FoldLinesSnoc(before, acct, ps, j);
      book' := AddPosition(book', acct, pos);
      j := j + 1;
    }
    assert ps[..j] == ps;
    ok := true;
  }

  lemma FoldLinesSnoc(before: seq<Line>, acct: AccountId, ps: seq<Position>, j: nat)
    requires j < |ps| && Summable(ps[j])
    requires AllSummable(Lines(acct, ps[..j])) && AllSummable(before + Lines(acct, ps[..j]))
    ensures AllSummable(Lines(acct, ps[..j + 1])) && AllSummable(before + Lines(acct, ps[..j + 1]))
    ensures Fold(before + Lines(acct, ps[..j + 1])) == AddLine(Fold(before + Lines(acct, ps[..j])), Line(acct, ps[j]))
  {
    var l := Line(acct, ps[j]);
    assert Lines(acct, ps[..j + 1]) == Lines(acct, ps[..j]) + [l];
    assert before + Lines(acct, ps[..j + 1]) == (before + Lines(acct, ps[..j])) + [l];
    FoldSnoc(before + Lines(acct, ps[..j]), l);
    AllSummableConcat(Lines(acct, ps[..j]), [l]);
  }

  /** One iteration of the inner loop: create the entry for a new conid, then add to its sums and breakdown. */
  method AddPosition(book: Book, acct: AccountId, pos: Position) returns (book': Book)
    requires Summable(pos)
    ensures book' == AddLine(book, Line(acct, pos))
  {
    var conid := pos["conid"];
    var positionSize := Qty(pos);
    var costBasis := Basis(pos);
    var holdings := book.holdings;
    var order := book.order;
    if conid !in holdings {
      holdings := holdings[conid := Holding(pos, 0.0, 0.0, map[])];
      order := order + [conid];
    }
    var h := holdings[conid];
    holdings := holdings[conid := Holding(h.first, h.totalPosition + positionSize,
                                          h.totalCostBasis + costBasis, h.breakdown[acct := positionSize])];
    book' := Book(order, holdings);
  }

  /** The final loop: one output position per key, in insertion order. */
  method FinishPositions(book: Book) returns (finals: seq<AggregatedPosition>)
    requires WellKeyed(book)
    ensures finals == FinalPositions(book)
  {
    finals := [];
    var k := 0;
    while k < |book.order|
      invariant 0 <= k <= |book.order|
      invariant finals == FinalPositions(book)[..k]
    {
      var h := book.holdings[book.order[k]];
      var tp := h.totalPosition;
      var tcb := h.totalCostBasis;
      var avg := if tp != 0.0 then tcb / tp else 0.0;
      var fields := (h.first - {"holdings_breakdown"})["total_position" := Num(tp)]["total_costBasis" := Num(tcb)]
                      ["position" := Num(tp)]["costBasis" := Num(tcb)]["avgCost" := Num(avg)];
      finals := finals + [AggregatedPosition(fields, h.breakdown)];
      k := k + 1;
    }
    assert FinalPositions(book)[..k] == FinalPositions(book);
  }
}
