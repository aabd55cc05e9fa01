/**
 * What `aggregate_portfolio_data` promises, proved about `Aggregation.Aggregate`
 * and the folds it is built from.
 */
module AggregationProperties {
  import opened Wrappers
  import opened JsonValue
  import opened AccountData
  import opened Seqs
  import opened Aggregation

  // ---------------------------------------------------------------------
  // Reference definitions
  // ---------------------------------------------------------------------

  /** The conid of every line, in visiting order. */
  function Conids(lines: seq<Line>): (r: seq<Json>)
    requires AllSummable(lines)
    ensures |r| == |lines|
    ensures forall i :: 0 <= i < |lines| ==> r[i] == lines[i].pos["conid"]
  {
    seq(|lines|, i requires 0 <= i < |lines| => lines[i].pos["conid"])
  }

  /** The sum of `position` over the lines whose conid is `c`. */
  function QtySum(lines: seq<Line>, c: Json): real
    requires AllSummable(lines)
  {
    if lines == [] then 0.0
    else
      var l := lines[|lines| - 1];
      QtySum(lines[..|lines| - 1], c) + (if l.pos["conid"] == c then Qty(l.pos) else 0.0)
  }

  /** The sum of `costBasis` over the lines whose conid is `c`. */
  function BasisSum(lines: seq<Line>, c: Json): real
    requires AllSummable(lines)
  {
    if lines == [] then 0.0
    else
      var l := lines[|lines| - 1];
      BasisSum(lines[..|lines| - 1], c) + (if l.pos["conid"] == c then Basis(l.pos) else 0.0)
  }

  function TotalPositionOf(b: Book, c: Json): real
  {
    if c in b.holdings then b.holdings[c].totalPosition else 0.0
  }

  function TotalCostBasisOf(b: Book, c: Json): real
  {
    if c in b.holdings then b.holdings[c].totalCostBasis else 0.0
  }

  function BreakdownOf(b: Book, c: Json): map<AccountId, real>
  {
    if c in b.holdings then b.holdings[c].breakdown else map[]
  }

  /** The summary amounts of the counted accounts, in order. */
  function CountedAmounts(all: AllData, f: SummaryField): seq<real>
  {
    if all == [] then []
    else
      var d := all[|all| - 1].1;
      CountedAmounts(all[..|all| - 1], f) + (if Counted(d) then [Amount(d.value.summary.value, f)] else [])
  }

  // ---------------------------------------------------------------------
  // Line-level facts about the fold
  // ---------------------------------------------------------------------

  lemma PrefixSummable(lines: seq<Line>, n: nat)
    requires AllSummable(lines) && n <= |lines|
    ensures AllSummable(lines[..n])
  {
    assert forall i :: 0 <= i < n ==> lines[..n][i] == lines[i];
  }

  /** One line adds its quantity and cost basis to its own conid's sums only. */
  lemma AddLineTotals(b: Book, l: Line, c: Json)
    requires Summable(l.pos)
    ensures TotalPositionOf(AddLine(b, l), c) == TotalPositionOf(b, c) + (if l.pos["conid"] == c then Qty(l.pos) else 0.0)
    ensures TotalCostBasisOf(AddLine(b, l), c) == TotalCostBasisOf(b, c) + (if l.pos["conid"] == c then Basis(l.pos) else 0.0)
  {
  }

  /** Per conid, the running sums are the sums over every line with that conid. */
  lemma {:induction false} FoldTotals(lines: seq<Line>, c: Json)
    requires AllSummable(lines)
    ensures TotalPositionOf(Fold(lines), c) == QtySum(lines, c)
    ensures TotalCostBasisOf(Fold(lines), c) == BasisSum(lines, c)
  {
    if lines != [] {
      var p := lines[..|lines| - 1];
      var l := lines[|lines| - 1];
      PrefixSummable(lines, |lines| - 1);
      FoldTotals(p, c);
      assert Fold(lines) == AddLine(Fold(p), l);
      AddLineTotals(Fold(p), l, c);
    }
  }

  lemma ConidsSnoc(lines: seq<Line>)
    requires AllSummable(lines) && lines != []
    ensures AllSummable(lines[..|lines| - 1])
    ensures Conids(lines) == Conids(lines[..|lines| - 1]) + [lines[|lines| - 1].pos["conid"]]
  {
    PrefixSummable(lines, |lines| - 1);
  }

  /** One line appends its conid to the order when it is new, and makes it a key. */
  lemma AddLineKeys(b: Book, l: Line)
    requires Summable(l.pos)
    ensures AddLine(b, l).order == if l.pos["conid"] in b.holdings then b.order else b.order + [l.pos["conid"]]
    ensures AddLine(b, l).holdings.Keys == b.holdings.Keys + {l.pos["conid"]}
  {
  }

  /** The output order is first-seen order of the conids, each once. */
  lemma {:induction false} FoldOrder(lines: seq<Line>)
    requires AllSummable(lines)
    ensures Fold(lines).order == Dedup(Conids(lines))
    ensures forall c :: c in Fold(lines).holdings <==> c in Conids(lines)
  {
    if lines != [] {
      var p := lines[..|lines| - 1];
      var l := lines[|lines| - 1];
      ConidsSnoc(lines);
      FoldOrder(p);
      DedupAppend(Conids(p), l.pos["conid"]);
      AddLineKeys(Fold(p), l);
    }
  }

  /** The index of the first line whose conid is `c`, or `|lines|` when there is none. */
  function FirstWith(lines: seq<Line>, c: Json): (k: nat)
    requires AllSummable(lines)
    ensures k <= |lines|
    ensures k < |lines| ==> lines[k].pos["conid"] == c
    ensures forall j :: 0 <= j < k && j < |lines| ==> lines[j].pos["conid"] != c
  {
    if lines == [] then 0
    else
      var p := lines[..|lines| - 1];
      var k := FirstWith(p, c);
      if k < |p| then k else if lines[|p|].pos["conid"] == c then |p| else |lines|
  }

  /** The index of the last line of account `a` whose conid is `c`, or `|lines|` when there is none. */
  function LastWith(lines: seq<Line>, c: Json, a: AccountId): (k: nat)
    requires AllSummable(lines)
    ensures k <= |lines|
    ensures k < |lines| ==> lines[k].account == a && lines[k].pos["conid"] == c
    ensures forall j :: 0 <= j < |lines| && (k < j || k == |lines|) ==> !(lines[j].account == a && lines[j].pos["conid"] == c)
  {
    if lines == [] then 0
    else
      var p := lines[..|lines| - 1];
      var l := lines[|p|];
      if l.account == a && l.pos["conid"] == c then |p|
      else
        var k := LastWith(p, c, a);
        if k < |p| then k else |lines|
  }

  /** Every other field of an output position comes from the first line with its conid. */
  lemma {:induction false} FoldFirst(lines: seq<Line>, c: Json)
    requires AllSummable(lines)
    ensures c in Fold(lines).holdings <==> FirstWith(lines, c) < |lines|
    ensures c in Fold(lines).holdings ==> Fold(lines).holdings[c].first == lines[FirstWith(lines, c)].pos
  {
    if lines != [] {
      var p := lines[..|lines| - 1];
      var l := lines[|lines| - 1];
      PrefixSummable(lines, |lines| - 1);
      FoldFirst(p, c);
      var k := FirstWith(p, c);
      if k < |p| {
        assert lines[k] == p[k];
      }
    }
  }

  /** One line changes the breakdown of its own conid only, at its own account. */
  lemma AddLineBreakdown(b: Book, l: Line, c: Json)
    requires Summable(l.pos)
    ensures BreakdownOf(AddLine(b, l), c)
      == if l.pos["conid"] == c then BreakdownOf(b, c)[l.account := Qty(l.pos)] else BreakdownOf(b, c)
  {
  }

  /**
   * `holdings_breakdown[a]` exists exactly when account `a` has a line with
   * conid `c`, and holds the position of the LAST such line (a repeated conid
   * in one account overwrites).
   */
  lemma {:induction false} FoldBreakdown(lines: seq<Line>, c: Json, a: AccountId)
    requires AllSummable(lines)
    ensures a in BreakdownOf(Fold(lines), c) <==> LastWith(lines, c, a) < |lines|
    ensures a in BreakdownOf(Fold(lines), c) ==> BreakdownOf(Fold(lines), c)[a] == Qty(lines[LastWith(lines, c, a)].pos)
  {
    if lines != [] {
      var p := lines[..|lines| - 1];
      var l := lines[|lines| - 1];
      PrefixSummable(lines, |lines| - 1);
      FoldBreakdown(p, c, a);
      assert Fold(lines) == AddLine(Fold(p), l);
      AddLineBreakdown(Fold(p), l, c);
      var k := LastWith(p, c, a);
      if !(l.account == a && l.pos["conid"] == c) && k < |p| {
        assert lines[k] == p[k];
      }
    }
  }

  lemma {:induction false} QtySumConcat(xs: seq<Line>, ys: seq<Line>, c: Json)
    requires AllSummable(xs + ys)
    ensures AllSummable(xs) && AllSummable(ys)
    ensures QtySum(xs + ys, c) == QtySum(xs, c) + QtySum(ys, c)
    ensures BasisSum(xs + ys, c) == BasisSum(xs, c) + BasisSum(ys, c)
    decreases |ys|
  {
    AllSummableConcat(xs, ys);
    if ys == [] {
      assert xs + ys == xs;
    } else {
      var ys' := ys[..|ys| - 1];
      assert (xs + ys)[..|xs + ys| - 1] == xs + ys';
      AllSummableConcat(xs, ys');
      QtySumConcat(xs, ys', c);
    }
  }

  // ---------------------------------------------------------------------
  // The summary
  // ---------------------------------------------------------------------

  lemma {:induction false} SummaryConcat(acc: Summary, a: AllData, b: AllData)
    ensures SummaryFrom(acc, a + b) == SummaryFrom(SummaryFrom(acc, a), b)
    decreases |b|
  {
    if b == [] {
      assert a + b == a;
    } else {
      var b' := b[..|b| - 1];
      var e := b[|b| - 1];
      assert a + b == (a + b') + [e];
      assert b == b' + [e];
      SummaryFromSnoc(acc, a + b', e);
      SummaryFromSnoc(SummaryFrom(acc, a), b', e);
      SummaryConcat(acc, a, b');
    }
  }

  lemma {:induction false} AmountShift(acc: Summary, all: AllData, f: SummaryField)
    ensures Amount(SummaryFrom(acc, all), f) == Amount(acc, f) + Amount(SummaryTotal(all), f)
  {
    if all != [] {
      AmountShift(acc, all[..|all| - 1], f);
    }
  }

  lemma AmountAdd(acc: Summary, s: Summary, f: SummaryField)
    ensures Amount(AddSummary(acc, s), f) == Amount(acc, f) + Amount(s, f)
  {
  }

  /** The last account's contribution to one summary amount. */
  function LastAmount(all: AllData, f: SummaryField): real
    requires all != []
  {
    var d := all[|all| - 1].1;
    if Counted(d) then Amount(d.value.summary.value, f) else 0.0
  }

  lemma AmountStep(all: AllData, f: SummaryField)
    requires all != []
    ensures Amount(SummaryTotal(all), f) == Amount(SummaryTotal(all[..|all| - 1]), f) + LastAmount(all, f)
  {
    var d := all[|all| - 1].1;
    if Counted(d) {
      AmountAdd(SummaryTotal(all[..|all| - 1]), d.value.summary.value, f);
    }
  }

  lemma CountedSumStep(all: AllData, f: SummaryField)
    requires all != []
    ensures Sum(CountedAmounts(all, f)) == Sum(CountedAmounts(all[..|all| - 1], f)) + LastAmount(all, f)
  {
    var xs := CountedAmounts(all[..|all| - 1], f);
    var d := all[|all| - 1].1;
    if Counted(d) {
      var v := Amount(d.value.summary.value, f);
      assert (xs + [v])[..|xs|] == xs;
    } else {
      assert xs + [] == xs;
    }
  }

  /** Each summary amount is the sum of that amount over the accounts that are not skipped. */
  lemma {:induction false} SummaryIsSumOverCounted(all: AllData, f: SummaryField)
    ensures Amount(SummaryTotal(all), f) == Sum(CountedAmounts(all, f))
  {
    if all != [] {
      SummaryIsSumOverCounted(all[..|all| - 1], f);
      AmountStep(all, f);
      CountedSumStep(all, f);
    }
  }

  /** `currency` is that of the last account processed, or 'USD' when every account was skipped. */
  lemma {:induction false} CurrencyIsLastCounted(all: AllData)
    ensures (forall i :: 0 <= i < |all| ==> !Counted(all[i].1)) ==> SummaryTotal(all).currency == Str("USD")
    ensures forall i :: 0 <= i < |all| && Counted(all[i].1) && (forall j :: i < j < |all| ==> !Counted(all[j].1)) ==>
              SummaryTotal(all).currency == all[i].1.value.summary.value.currency
  {
    if all != [] {
      var p := all[..|all| - 1];
      var e := all[|all| - 1];
      assert all == p + [e];
      SummaryFromSnoc(ZeroSummary, p, e);
      CurrencyIsLastCounted(p);
      assert forall i :: 0 <= i < |p| ==> p[i] == all[i];
      if !Counted(e.1) {
        assert SummaryTotal(all) == SummaryTotal(p);
      }
    }
  }

  /** Splitting the accounts into two batches: the amounts of the whole are the sums of the batches' amounts. */
  lemma SummaryBatches(a: AllData, b: AllData, f: SummaryField)
    ensures Amount(SummaryTotal(a + b), f) == Amount(SummaryTotal(a), f) + Amount(SummaryTotal(b), f)
  {
    SummaryConcat(ZeroSummary, a, b);
    AmountShift(SummaryTotal(a), b, f);
  }

  // ---------------------------------------------------------------------
  // Aggregate-level properties
  // ---------------------------------------------------------------------

  /** No input: the zeroed 'USD' summary and no positions. */
  lemma EmptyInput()
    ensures Aggregate([]) == Some(Portfolio(ZeroSummary, []))
  {
    assert FinalPositions(Fold([])) == [];
  }

  /** A `None` record, or one without a summary, contributes nothing at all. */
  lemma SkippedAccountIgnored(a: AllData, x: (AccountId, Option<AccountRecord>), b: AllData)
    requires !Counted(x.1)
    ensures Aggregate(a + [x] + b) == Aggregate(a + b)
  {
    FlatConcat(a + [x], b);
    FlatConcat(a, b);
    FlatSnoc(a, x);
    assert Flat(a + [x]) == Flat(a);
    SummaryConcat(ZeroSummary, a + [x], b);
    SummaryConcat(ZeroSummary, a, b);
    SummaryFromSnoc(ZeroSummary, a, x);
  }

  /**
   * Order independence for two batches of accounts: the summary amounts, the
   * set of conids and each conid's total position and cost basis are the same
   * whichever batch is processed first.
   */
  lemma BatchOrderIrrelevant(a: AllData, b: AllData, f: SummaryField, c: Json)
    requires AllSummable(Flat(a + b))
    ensures AllSummable(Flat(b + a))
    ensures Amount(SummaryTotal(a + b), f) == Amount(SummaryTotal(b + a), f)
    ensures TotalPositionOf(Fold(Flat(a + b)), c) == TotalPositionOf(Fold(Flat(b + a)), c)
    ensures TotalCostBasisOf(Fold(Flat(a + b)), c) == TotalCostBasisOf(Fold(Flat(b + a)), c)
    ensures (c in Fold(Flat(a + b)).holdings) == (c in Fold(Flat(b + a)).holdings)
  {
    FlatConcat(a, b);
    FlatConcat(b, a);
    QtySumConcat(Flat(a), Flat(b), c);
    AllSummableConcat(Flat(b), Flat(a));
    QtySumConcat(Flat(b), Flat(a), c);
    SummaryBatches(a, b, f);
    SummaryBatches(b, a, f);
    FoldTotals(Flat(a + b), c);
    FoldTotals(Flat(b + a), c);
    FoldOrder(Flat(a + b));
    FoldOrder(Flat(b + a));
    assert c in Conids(Flat(a) + Flat(b)) <==> c in Conids(Flat(b)) + Conids(Flat(a)) by {
      assert Conids(Flat(a) + Flat(b)) == Conids(Flat(a)) + Conids(Flat(b));
      assert Conids(Flat(b) + Flat(a)) == Conids(Flat(b)) + Conids(Flat(a));
    }
  }

  /** What the final loop writes into one output dict. */
  lemma FinishFields(h: Holding)
    ensures var f := Finish(h).fields;
      && f["position"] == f["total_position"] == Num(h.totalPosition)
      && f["costBasis"] == f["total_costBasis"] == Num(h.totalCostBasis)
      && f["avgCost"] == Num(AverageCost(h.totalPosition, h.totalCostBasis))
      && "holdings_breakdown" !in f
      && Finish(h).breakdown == h.breakdown
      && forall key :: key in h.first && !Overwritten(key) ==> key in f && f[key] == h.first[key]
  {
  }

  /**
   * The result position by position: one per distinct conid in first-seen
   * order, with the sums over all lines of that conid, the guarded average
   * cost, and every other field copied from the first line with that conid.
   */
  lemma AggregateMeaning(all: AllData)
    requires Aggregate(all).Some?
    ensures var lines := Flat(all);
      var r := Aggregate(all).value;
      && AllSummable(lines)
      && r.summary == SummaryTotal(all)
      && |r.positions| == |Dedup(Conids(lines))|
      && forall i :: 0 <= i < |r.positions| ==>
           var c := Dedup(Conids(lines))[i];
           var fields := r.positions[i].fields;
           var k := FirstWith(lines, c);
           && fields["position"] == fields["total_position"] == Num(QtySum(lines, c))
           && fields["costBasis"] == fields["total_costBasis"] == Num(BasisSum(lines, c))
           && fields["avgCost"] == Num(AverageCost(QtySum(lines, c), BasisSum(lines, c)))
           && "holdings_breakdown" !in fields
           && k < |lines|
           && "conid" in fields && fields["conid"] == c
           && forall key :: key in lines[k].pos && !Overwritten(key) ==> key in fields && fields[key] == lines[k].pos[key]
  {
    var lines := Flat(all);
    var b := Fold(lines);
    FoldOrder(lines);
    var r := Aggregate(all).value;
    forall i | 0 <= i < |r.positions|
      ensures var c := Dedup(Conids(lines))[i];
           var fields := r.positions[i].fields;
           var k := FirstWith(lines, c);
           && fields["position"] == fields["total_position"] == Num(QtySum(lines, c))
           && fields["costBasis"] == fields["total_costBasis"] == Num(BasisSum(lines, c))
           && fields["avgCost"] == Num(AverageCost(QtySum(lines, c), BasisSum(lines, c)))
           && "holdings_breakdown" !in fields
           && k < |lines|
           && "conid" in fields && fields["conid"] == c
           && forall key :: key in lines[k].pos && !Overwritten(key) ==> key in fields && fields[key] == lines[k].pos[key]
    {
      var c := b.order[i];
      var h := b.holdings[c];
      assert r.positions[i] == Finish(h);
      FoldTotals(lines, c);
      FoldFirst(lines, c);
      FinishFields(h);
      assert !Overwritten("conid");
    }
  }

  // ---------------------------------------------------------------------
  // holdings_breakdown against total_position
  // ---------------------------------------------------------------------

  function Ids(all: AllData): (r: seq<AccountId>)
    ensures |r| == |all| && forall i :: 0 <= i < |all| ==> r[i] == all[i].0
  {
    seq(|all|, i requires 0 <= i < |all| => all[i].0)
  }

  /** The breakdown values summed over the accounts of `all_data` (each key once when the ids are distinct). */
  function BreakdownTotal(ids: seq<AccountId>, bd: map<AccountId, real>): real
  {
    if ids == [] then 0.0
    else
      var a := ids[|ids| - 1];
      BreakdownTotal(ids[..|ids| - 1], bd) + (if a in bd then bd[a] else 0.0)
  }

  predicate HasConid(ps: seq<Position>, c: Json)
  {
    exists i :: 0 <= i < |ps| && "conid" in ps[i] && ps[i]["conid"] == c
  }

  /** No conid occurs twice among one account's positions. */
  predicate UniqueConids(ps: seq<Position>)
  {
    forall i, j :: 0 <= i < j < |ps| && "conid" in ps[i] && "conid" in ps[j] ==> ps[i]["conid"] != ps[j]["conid"]
  }

  lemma HasConidSnoc(ps: seq<Position>, p: Position, c: Json)
    ensures HasConid(ps + [p], c) <==> HasConid(ps, c) || ("conid" in p && p["conid"] == c)
  {
    var qs := ps + [p];
    if HasConid(qs, c) {
      var i :| 0 <= i < |qs| && "conid" in qs[i] && qs[i]["conid"] == c;
      if i < |ps| { assert qs[i] == ps[i]; }
    }
    if HasConid(ps, c) {
      var i :| 0 <= i < |ps| && "conid" in ps[i] && ps[i]["conid"] == c;
      assert qs[i] == ps[i];
    }
    assert qs[|ps|] == p;
  }

  lemma LinesSnoc(a: AccountId, ps: seq<Position>)
    requires ps != []
    ensures Lines(a, ps) == Lines(a, ps[..|ps| - 1]) + [Line(a, ps[|ps| - 1])]
  {
  }

  lemma UniqueLastAbsent(ps: seq<Position>)
    requires UniqueConids(ps) && ps != [] && "conid" in ps[|ps| - 1]
    ensures !HasConid(ps[..|ps| - 1], ps[|ps| - 1]["conid"])
  {
  }

  lemma QtySumLinesSnoc(a: AccountId, ps: seq<Position>, c: Json)
    requires ps != [] && AllSummable(Lines(a, ps))
    ensures AllSummable(Lines(a, ps[..|ps| - 1])) && Summable(ps[|ps| - 1])
    ensures QtySum(Lines(a, ps), c)
      == QtySum(Lines(a, ps[..|ps| - 1]), c) + (if ps[|ps| - 1]["conid"] == c then Qty(ps[|ps| - 1]) else 0.0)
  {
    var zs := Lines(a, ps);
    assert zs[..|zs| - 1] == Lines(a, ps[..|ps| - 1]);
    assert zs[|zs| - 1] == Line(a, ps[|ps| - 1]);
  }

  lemma {:induction false} QtySumLinesAbsent(a: AccountId, ps: seq<Position>, c: Json)
    requires AllSummable(Lines(a, ps)) && !HasConid(ps, c)
    ensures QtySum(Lines(a, ps), c) == 0.0
  {
    if ps != [] {
      QtySumLinesSnoc(a, ps, c);
      assert !HasConid(ps[..|ps| - 1], c) by {
        HasConidSnoc(ps[..|ps| - 1], ps[|ps| - 1], c);
        assert ps == ps[..|ps| - 1] + [ps[|ps| - 1]];
      }
      QtySumLinesAbsent(a, ps[..|ps| - 1], c);
    }
  }

  /** Merging one account with unique conids touches only its own breakdown key, which gets its whole position. */
  lemma {:induction false} MergeOneAccount(xs: seq<Line>, a: AccountId, ps: seq<Position>, c: Json)
    requires AllSummable(xs + Lines(a, ps))
    requires UniqueConids(ps)
    ensures AllSummable(xs) && AllSummable(Lines(a, ps))
    ensures BreakdownOf(Fold(xs + Lines(a, ps)), c)
      == if HasConid(ps, c) then BreakdownOf(Fold(xs), c)[a := QtySum(Lines(a, ps), c)] else BreakdownOf(Fold(xs), c)
    decreases |ps|
  {
    AllSummableConcat(xs, Lines(a, ps));
    if ps == [] {
      assert xs + Lines(a, ps) == xs;
    } else {
      var n := |ps| - 1;
      var ps' := ps[..n];
      var p := ps[n];
      assert ps == ps' + [p] && ps[..n + 1] == ps;
      QtySumLinesSnoc(a, ps, c);
      AllSummableConcat(xs, Lines(a, ps'));
      FoldLinesSnoc(xs, a, ps, n);
      assert UniqueConids(ps');
      MergeOneAccount(xs, a, ps', c);
      AddLineBreakdown(Fold(xs + Lines(a, ps')), Line(a, p), c);
      HasConidSnoc(ps', p, c);
      if p["conid"] == c {
        UniqueLastAbsent(ps);
        QtySumLinesAbsent(a, ps', c);
      }
    }
  }

  lemma {:induction false} BreakdownTotalAgree(ids: seq<AccountId>, bd1: map<AccountId, real>, bd2: map<AccountId, real>)
    requires forall i :: 0 <= i < |ids| ==> (ids[i] in bd1 <==> ids[i] in bd2)
    requires forall i :: 0 <= i < |ids| && ids[i] in bd1 ==> bd1[ids[i]] == bd2[ids[i]]
    ensures BreakdownTotal(ids, bd1) == BreakdownTotal(ids, bd2)
  {
    if ids != [] {
      BreakdownTotalAgree(ids[..|ids| - 1], bd1, bd2);
    }
  }

  /** `all_data` is a dict: its account ids are distinct. */
  predicate DistinctIds(all: AllData)
  {
    forall i, j :: 0 <= i < j < |all| ==> all[i].0 != all[j].0
  }

  /**
   * When no account holds a conid twice, the breakdown values of each
   * aggregated position sum to its `total_position`.
   */
  lemma {:induction false} BreakdownSumsToTotal(all: AllData, c: Json)
    requires DistinctIds(all)
    requires forall i :: 0 <= i < |all| && Counted(all[i].1) ==> UniqueConids(all[i].1.value.positions)
    requires AllSummable(Flat(all))
    ensures BreakdownTotal(Ids(all), BreakdownOf(Fold(Flat(all)), c)) == TotalPositionOf(Fold(Flat(all)), c)
    ensures forall b :: b in BreakdownOf(Fold(Flat(all)), c) ==> b in Ids(all)
  {
    if all != [] {
      var n := |all| - 1;
      var pre := all[..n];
      var x := all[n];
      assert all == pre + [x];
      assert forall i :: 0 <= i < |pre| ==> pre[i] == all[i];
      FlatSnoc(pre, x);
      AllSummableConcat(Flat(pre), EntryLines(x));
      BreakdownSumsToTotal(pre, c);
      assert x.0 !in Ids(pre);
      if Counted(x.1) {
        BreakdownStepCounted(pre, x, c);
      } else {
        BreakdownStepSkipped(pre, x, c);
      }
    }
  }

  lemma IdsSnoc(pre: AllData, x: (AccountId, Option<AccountRecord>))
    ensures Ids(pre + [x]) == Ids(pre) + [x.0]
  {
  }

  lemma BreakdownTotalSnoc(ids: seq<AccountId>, a: AccountId, bd: map<AccountId, real>)
    ensures BreakdownTotal(ids + [a], bd) == BreakdownTotal(ids, bd) + (if a in bd then bd[a] else 0.0)
  {
    assert (ids + [a])[..|ids|] == ids;
  }

  /** The induction step for an account with a summary and unique conids. */
  lemma BreakdownStepCounted(pre: AllData, x: (AccountId, Option<AccountRecord>), c: Json)
    requires Counted(x.1) && UniqueConids(x.1.value.positions)
    requires x.0 !in Ids(pre)
    requires AllSummable(Flat(pre)) && AllSummable(Flat(pre + [x]))
    requires BreakdownTotal(Ids(pre), BreakdownOf(Fold(Flat(pre)), c)) == TotalPositionOf(Fold(Flat(pre)), c)
    requires forall b :: b in BreakdownOf(Fold(Flat(pre)), c) ==> b in Ids(pre)
    ensures BreakdownTotal(Ids(pre + [x]), BreakdownOf(Fold(Flat(pre + [x])), c)) == TotalPositionOf(Fold(Flat(pre + [x])), c)
    ensures forall b :: b in BreakdownOf(Fold(Flat(pre + [x])), c) ==> b in Ids(pre + [x])
  {
    var ps := x.1.value.positions;
    var xs := Flat(pre);
    FlatSnoc(pre, x);
    assert Flat(pre + [x]) == xs + Lines(x.0, ps);
    MergeOneAccount(xs, x.0, ps, c);
    FoldTotals(xs, c);
    FoldTotals(xs + Lines(x.0, ps), c);
    QtySumConcat(xs, Lines(x.0, ps), c);
    IdsSnoc(pre, x);
    var bd0 := BreakdownOf(Fold(xs), c);
    var bd1 := BreakdownOf(Fold(xs + Lines(x.0, ps)), c);
    BreakdownTotalSnoc(Ids(pre), x.0, bd1);
    BreakdownTotalAgree(Ids(pre), bd1, bd0);
    if !HasConid(ps, c) {
      QtySumLinesAbsent(x.0, ps, c);
    }
  }

  /** The induction step for a skipped account: nothing changes, and its id has no breakdown entry. */
  lemma BreakdownStepSkipped(pre: AllData, x: (AccountId, Option<AccountRecord>), c: Json)
    requires !Counted(x.1)
    requires x.0 !in Ids(pre)
    requires AllSummable(Flat(pre))
    requires BreakdownTotal(Ids(pre), BreakdownOf(Fold(Flat(pre)), c)) == TotalPositionOf(Fold(Flat(pre)), c)
    requires forall b :: b in BreakdownOf(Fold(Flat(pre)), c) ==> b in Ids(pre)
    ensures AllSummable(Flat(pre + [x]))
    ensures BreakdownTotal(Ids(pre + [x]), BreakdownOf(Fold(Flat(pre + [x])), c)) == TotalPositionOf(Fold(Flat(pre + [x])), c)
    ensures forall b :: b in BreakdownOf(Fold(Flat(pre + [x])), c) ==> b in Ids(pre + [x])
  {
    FlatSnoc(pre, x);
    assert Flat(pre + [x]) == Flat(pre);
    IdsSnoc(pre, x);
    BreakdownTotalSnoc(Ids(pre), x.0, BreakdownOf(Fold(Flat(pre)), c));
  }

  // ---------------------------------------------------------------------
  // Worked examples
  // ---------------------------------------------------------------------

  /** `Flat` of one account. */
  lemma FlatOne(x: (AccountId, Option<AccountRecord>))
    ensures Flat([x]) == EntryLines(x)
  {
    FlatSnoc([], x);
    assert [] + [x] == [x];
  }

  /** `Flat` of two accounts that are both counted. */
  lemma FlatTwo(x: (AccountId, Option<AccountRecord>), y: (AccountId, Option<AccountRecord>))
    requires Counted(x.1) && Counted(y.1)
    ensures Flat([x, y]) == Lines(x.0, x.1.value.positions) + Lines(y.0, y.1.value.positions)
  {
    FlatSnoc([], x);
    assert [] + [x] == [x];
    FlatSnoc([x], y);
    assert [x] + [y] == [x, y];
  }

  /** The fold of two lines. */
  lemma FoldTwo(l1: Line, l2: Line)
    requires Summable(l1.pos) && Summable(l2.pos)
    ensures AllSummable([l1, l2])
    ensures Fold([l1, l2]) == AddLine(AddLine(Book([], map[]), l1), l2)
  {
    FoldOne(l1);
    FoldSnoc([l1], l2);
    assert [l1] + [l2] == [l1, l2];
  }

  /** The fold of one line. */
  lemma FoldOne(l: Line)
    requires Summable(l.pos)
    ensures AllSummable([l])
    ensures Fold([l]) == AddLine(Book([], map[]), l)
  {
    assert [l][..0] == [];
  }

  /** A repeated conid inside one account: the total keeps both lines, the breakdown only the last. */
  lemma DuplicateConidInOneAccount()
    ensures var p1 := map["conid" := Num(1.0), "position" := Num(1.0)];
      var p2 := map["conid" := Num(1.0), "position" := Num(2.0)];
      var lines := Flat([(Str("A"), Some(AccountRecord(Some(ZeroSummary), [p1, p2])))]);
      && AllSummable(lines)
      && TotalPositionOf(Fold(lines), Num(1.0)) == 3.0
      && BreakdownOf(Fold(lines), Num(1.0)) == map[Str("A") := 2.0]
  {
    var p1 := map["conid" := Num(1.0), "position" := Num(1.0)];
    var p2 := map["conid" := Num(1.0), "position" := Num(2.0)];
    var x := (Str("A"), Some(AccountRecord(Some(ZeroSummary), [p1, p2])));
    FlatOne(x);
    var l1 := Line(Str("A"), p1);
    var l2 := Line(Str("A"), p2);
    assert Lines(Str("A"), [p1, p2]) == [l1, l2];
    assert Qty(p1) == 1.0 && Qty(p2) == 2.0 && Basis(p1) == 0.0 && Basis(p2) == 0.0;
    FoldTwo(l1, l2);
    var b1 := AddLine(Book([], map[]), l1);
    assert b1.holdings[Num(1.0)] == Holding(p1, 1.0, 0.0, map[Str("A") := 1.0]);
    var b2 := AddLine(b1, l2);
    assert b2.holdings[Num(1.0)] == Holding(p1, 3.0, 0.0, map[Str("A") := 1.0][Str("A") := 2.0]);
    assert map[Str("A") := 1.0][Str("A") := 2.0] == map[Str("A") := 2.0];
  }

  /** Two accounts holding the same instrument, long 10 at 100 and short 4 at 90. */
  lemma TwoAccountsOneInstrument()
    ensures var a := map["conid" := Num(1.0), "position" := Num(10.0), "costBasis" := Num(1000.0)];
      var b := map["conid" := Num(1.0), "position" := Num(-4.0), "costBasis" := Num(-360.0)];
      var all := [(Str("A"), Some(AccountRecord(Some(ZeroSummary), [a]))),
                  (Str("B"), Some(AccountRecord(Some(ZeroSummary), [b])))];
      && AllSummable(Flat(all))
      && Num(1.0) in Fold(Flat(all)).holdings
      && var h := Fold(Flat(all)).holdings[Num(1.0)];
      && h.totalPosition == 6.0
      && h.totalCostBasis == 640.0
      && AverageCost(h.totalPosition, h.totalCostBasis) == 640.0 / 6.0
      && h.breakdown == map[Str("A") := 10.0, Str("B") := -4.0]
  {
    var a := map["conid" := Num(1.0), "position" := Num(10.0), "costBasis" := Num(1000.0)];
    var b := map["conid" := Num(1.0), "position" := Num(-4.0), "costBasis" := Num(-360.0)];
    var x := (Str("A"), Some(AccountRecord(Some(ZeroSummary), [a])));
    var y := (Str("B"), Some(AccountRecord(Some(ZeroSummary), [b])));
    FlatTwo(x, y);
    var l1 := Line(Str("A"), a);
    var l2 := Line(Str("B"), b);
    assert Lines(Str("A"), [a]) + Lines(Str("B"), [b]) == [l1, l2];
    assert Qty(a) == 10.0 && Basis(a) == 1000.0 && Qty(b) == -4.0 && Basis(b) == -360.0;
    FoldTwo(l1, l2);
  }

  lemma NotANumber()
    ensures ToFloat(Str("x")) == None
  {
    assert IndexOfExponent("x") == 1;
    assert "x"[..1] == "x";
    assert !AllDigits("x");
  }

  /**
   * A position whose `position` is not numeric survives normalisation (its
   * cost basis becomes 0) but then makes the aggregation raise.
   */
  lemma MalformedQuantityAbortsAggregation()
    ensures var raw := map["conid" := Num(1.0), "position" := Str("x"), "avgCost" := Num(5.0)];
      var rec := Normalized(Obj(map[]), Arr([Obj(raw)]));
      && rec.Some?
      && rec.value.positions == [raw["costBasis" := Num(0.0)]]
      && Aggregate([(Str("A"), rec)]) == None
  {
    var raw := map["conid" := Num(1.0), "position" := Str("x"), "avgCost" := Num(5.0)];
    NotANumber();
    assert CostBasis(raw) == 0.0;
    var norm := raw["costBasis" := Num(0.0)];
    assert NormalizePosition(raw) == norm;
    assert AllObjects([Obj(raw)]);
    var pp := ProcessedPositions(Arr([Obj(raw)])).value;
    assert |pp| == 1 && pp[0] == norm;
    assert pp == [norm];
    assert ProcessedPositions(Arr([Obj(raw)])).Some?;
    assert ProcessedPositions(Arr([Obj(raw)])) == Some([norm]);
    SummaryDefaults(map[], NetLiquidation);
    var rec := Normalized(Obj(map[]), Arr([Obj(raw)]));
    assert rec == Some(AccountRecord(Some(ZeroSummary), [norm]));
    FlatOne((Str("A"), rec));
    assert Flat([(Str("A"), rec)]) == [Line(Str("A"), norm)];
    assert !Summable(norm);
  }
}
