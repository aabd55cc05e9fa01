/**
 * Per-account normalisation (`fetch_account_data` in app/main.py, and the same
 * steps inline in the older `home`): every raw position gets its cost basis
 * recomputed locally, and the summary is read from the gateway's raw fields
 * with 0 and 'USD' as defaults.
 */
module AccountData {
  import opened Wrappers
  import opened JsonValue
  import opened Text

  /** One position dict as the gateway returns it (conid, position, avgCost, description, ...). */
  type Position = map<string, Json>

  /** The summary dict assembled per account; amounts are already floats. */
  datatype Summary = Summary(netLiquidation: real, realizedPnl: real, cash: real, buyingPower: real, currency: Json)

  /** The four amounts of a summary, addressed by name. */
  datatype SummaryField = NetLiquidation | RealizedPnl | Cash | BuyingPower

  function Amount(s: Summary, f: SummaryField): real
  {
    match f
    case NetLiquidation => s.netLiquidation
    case RealizedPnl => s.realizedPnl
    case Cash => s.cash
    case BuyingPower => s.buyingPower
  }

  /** The gateway key each summary amount is read from. */
  function RawKey(f: SummaryField): string
  {
    match f
    case NetLiquidation => "netliquidation"
    case RealizedPnl => "realizedpnl"
    case Cash => "cashbalance"
    case BuyingPower => "buyingpower"
  }

  /** `{'summary': ..., 'positions': [...]}`; a summary that is absent or empty is `None`. */
  datatype AccountRecord = AccountRecord(summary: Option<Summary>, positions: seq<Position>)

  // ---------------------------------------------------------------------
  // Positions
  // ---------------------------------------------------------------------

  /**
   * `float(p.get('position', 0)) * float(p.get('avgCost', 0))`, or 0 when
   * either conversion raises.
   */
  function CostBasis(p: Position): real
  {
    var q := ToFloat(Get(p, "position", Num(0.0)));
    var a := ToFloat(Get(p, "avgCost", Num(0.0)));
    if q.Some? && a.Some? then Times(q.value, a.value) else 0.0
  }

  /** The float product `quantity * avg_cost`. */
  function Times(x: real, y: real): real
  {
    x * y
  }

  /** The position dict after `p['costBasis'] = ...`. */
  function NormalizePosition(p: Position): (r: Position)
    ensures r.Keys == p.Keys + {"costBasis"}
    ensures forall k :: k in p && k != "costBasis" ==> r[k] == p[k]
  {
    p["costBasis" := Num(CostBasis(p))]
  }

  predicate AllObjects(items: seq<Json>)
  {
    forall i :: 0 <= i < |items| ==> items[i].Obj?
  }

  /**
   * The processed position list: a list of dicts is normalised entry by entry;
   * any other JSON value gives `[]`; an entry that is not a dict makes `p.get`
   * raise (`None`).
   */
  function ProcessedPositions(raw: Json): Option<seq<Position>>
  {
    if !raw.Arr? then Some([])
    else if !AllObjects(raw.items) then None
    else Some(seq(|raw.items|, i requires 0 <= i < |raw.items| => NormalizePosition(raw.items[i].fields)))
  }

  // ---------------------------------------------------------------------
  // Summary
  // ---------------------------------------------------------------------

  /**
   * `float(summary_raw.get(key, {}).get('amount', 0))`; `None` when the entry
   * is not a dict or the amount is not numeric (the exception propagates).
   */
  function RawAmount(raw: map<string, Json>, key: string): Option<real>
  {
    var entry := Get(raw, key, Obj(map[]));
    if entry.Obj? then ToFloat(Get(entry.fields, "amount", Num(0.0))) else None
  }

  /** `summary_raw.get('netliquidation', {}).get('currency', 'USD')`, once the amount read has succeeded. */
  function RawCurrency(raw: map<string, Json>): Json
  {
    var entry := Get(raw, "netliquidation", Obj(map[]));
    if entry.Obj? then Get(entry.fields, "currency", Str("USD")) else Str("USD")
  }

  /** The summary dict comprehension plus the currency line. */
  function SummaryOf(raw: Json): Option<Summary>
  {
    if !raw.Obj? then None
    else
      var nl := RawAmount(raw.fields, "netliquidation");
      var rp := RawAmount(raw.fields, "realizedpnl");
      var cb := RawAmount(raw.fields, "cashbalance");
      var bp := RawAmount(raw.fields, "buyingpower");
      if nl.Some? && rp.Some? && cb.Some? && bp.Some? then
        Some(Summary(nl.value, rp.value, cb.value, bp.value, RawCurrency(raw.fields)))
      else
        None
  }

  /** What `fetch_account_data` returns for one account's raw summary and positions; `None` if it raises. */
  function Normalized(summaryRaw: Json, positionsRaw: Json): Option<AccountRecord>
  {
    var ps := ProcessedPositions(positionsRaw);
    var s := SummaryOf(summaryRaw);
    if ps.Some? && s.Some? then Some(AccountRecord(Some(s.value), ps.value)) else None
  }

  /** The loop of `fetch_account_data` over the raw positions. */
  method ProcessPositions(positionsRaw: Json) returns (r: Option<seq<Position>>)
    ensures r == ProcessedPositions(positionsRaw)
  {
    if !positionsRaw.Arr? {
      return Some([]);
    }
    var items := positionsRaw.items;
    var processed: seq<Position> := [];
    var i := 0;
    while i < |items|
      invariant 0 <= i <= |items|
      invariant AllObjects(items[..i])
      invariant |processed| == i
      invariant forall k :: 0 <= k < i ==> processed[k] == NormalizePosition(items[k].fields)
    {
      if !items[i].Obj? {
        // `p.get` on a non-dict raises AttributeError, which the except clause does not catch.
        assert !AllObjects(items);
        return None;
      }
      var p := items[i].fields;
      var quantity := ToFloat(Get(p, "position", Num(0.0)));
      var avgCost := ToFloat(Get(p, "avgCost", Num(0.0)));
      if quantity.Some? && avgCost.Some? {
        p := p["costBasis" := Num(Times(quantity.value, avgCost.value))];
      } else {
        // except (ValueError, TypeError)
        p := p["costBasis" := Num(0.0)];
      }
      processed := processed + [p];
      i := i + 1;
    }
    assert items[..i] == items;
    assert processed == ProcessedPositions(positionsRaw).value;
    r := Some(processed);
  }

  /** `fetch_account_data` once both gateway responses are in hand: the positions, then the summary. */
  method FetchAccountData(summaryRaw: Json, positionsRaw: Json) returns (r: Option<AccountRecord>)
    ensures r == Normalized(summaryRaw, positionsRaw)
    ensures r.Some? ==> r.value.summary.Some?
    ensures r.Some? && positionsRaw.Arr? ==> |r.value.positions| == |positionsRaw.items|
    ensures r.Some? && !positionsRaw.Arr? ==> r.value.positions == []
  {
    var processed := ProcessPositions(positionsRaw);
    if processed.None? {
      return None;
    }
    var summary := SummaryOf(summaryRaw);
    if summary.None? {
      return None;
    }
    r := Some(AccountRecord(Some(summary.value), processed.value));
  }

  // ---------------------------------------------------------------------
  // What the normalisation promises
  // ---------------------------------------------------------------------

  /** The recomputed cost basis: quantity times average cost, a missing field read as 0, and 0 after a failed conversion. */
  lemma CostBasisRecomputed(p: Position)
    ensures ToFloat(Get(p, "position", Num(0.0))).Some? && ToFloat(Get(p, "avgCost", Num(0.0))).Some? ==>
      CostBasis(p) == ToFloat(Get(p, "position", Num(0.0))).value * ToFloat(Get(p, "avgCost", Num(0.0))).value
    ensures ToFloat(Get(p, "position", Num(0.0))).None? || ToFloat(Get(p, "avgCost", Num(0.0))).None? ==> CostBasis(p) == 0.0
    ensures "position" !in p || "avgCost" !in p ==> CostBasis(p) == 0.0
    ensures NormalizePosition(p)["costBasis"] == Num(CostBasis(p))
  {
  }

  /** The upstream `costBasis` is never trusted: replacing it changes nothing in the result. */
  lemma UpstreamCostBasisIgnored(p: Position, v: Json)
    ensures NormalizePosition(p["costBasis" := v]) == NormalizePosition(p)
  {
    var p' := p["costBasis" := v];
    assert Get(p', "position", Num(0.0)) == Get(p, "position", Num(0.0));
    assert Get(p', "avgCost", Num(0.0)) == Get(p, "avgCost", Num(0.0));
    var x := Num(CostBasis(p));
    assert CostBasis(p') == CostBasis(p);
    assert p'["costBasis" := x] == p["costBasis" := x];
  }

  /** Normalising is idempotent. */
  lemma NormalizeIdempotent(p: Position)
    ensures NormalizePosition(NormalizePosition(p)) == NormalizePosition(p)
  {
    UpstreamCostBasisIgnored(p, Num(CostBasis(p)));
  }

  /**
   * No position is dropped or reordered: a list of dicts keeps its length and
   * order, each entry normalised; a non-list gives no positions.
   */
  lemma NormalizedKeepsEveryPosition(summaryRaw: Json, positionsRaw: Json)
    requires Normalized(summaryRaw, positionsRaw).Some?
    ensures var ps := Normalized(summaryRaw, positionsRaw).value.positions;
      && (positionsRaw.Arr? ==>
            && |ps| == |positionsRaw.items|
            && forall i :: 0 <= i < |ps| ==> positionsRaw.items[i].Obj? && ps[i] == NormalizePosition(positionsRaw.items[i].fields))
      && (!positionsRaw.Arr? ==> ps == [])
  {
  }

  /** The summary reads `amount` under each raw key, 0 for a missing key, and 'USD' when no currency is given. */
  lemma SummaryDefaults(raw: map<string, Json>, f: SummaryField)
    ensures RawKey(f) !in raw ==> RawAmount(raw, RawKey(f)) == Some(0.0)
    ensures "netliquidation" !in raw ==> RawCurrency(raw) == Str("USD")
    ensures SummaryOf(Obj(raw)).Some? ==> Some(Amount(SummaryOf(Obj(raw)).value, f)) == RawAmount(raw, RawKey(f))
    ensures SummaryOf(Obj(map[])) == Some(Summary(0.0, 0.0, 0.0, 0.0, Str("USD")))
  {
  }

  /** A non-numeric amount makes the whole normalisation raise. */
  lemma NonNumericAmountRaises(raw: map<string, Json>, f: SummaryField, positionsRaw: Json)
    requires RawKey(f) in raw && raw[RawKey(f)] == Obj(map["amount" := Str("n/a")])
    ensures Normalized(Obj(raw), positionsRaw) == None
  {
    var s := "n/a";
    assert IndexOfExponent(s) == 3;
    assert s[..3] == s;
    assert IndexOf(s, '.') == 3;
    assert !AllDigits(s);
    assert ParseDecimal(s) == None;
  }
}
