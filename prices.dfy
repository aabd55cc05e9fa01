/**
 * The `/api/prices` endpoint (app/main.py, and the identical revision in
 * tempCodeRunnerFile.py): the snapshot of each requested conid reshaped into
 * price, change and a closing-price flag.
 */
module Prices {
  import opened JsonValue
  import opened Text

  /** One entry of `price_dict`. */
  datatype Quote = Quote(price: Json, change: Json, isClose: bool)

  /** A snapshot entry: the dict the market-data answer gave for one conid. */
  type Snapshot = map<string, Json>

  /** A closing price is a string starting with 'C'. */
  predicate ClosingPrice(v: Json)
  {
    v.Str? && StartsWith(v.s, "C")
  }

  /** The entry built for one truthy snapshot: field 31 is the price, field 83 the change, 'N/A' when absent. */
  function ShapeQuote(data: Snapshot): (q: Quote)
    ensures q.isClose <==> ClosingPrice(Get(data, "31", Str("N/A")))
    ensures q.isClose ==> q.price.Str? && Get(data, "31", Str("N/A")) == Str("C" + q.price.s)
    ensures !q.isClose ==> q.price == Get(data, "31", Str("N/A"))
    ensures q.change == Get(data, "83", Str("N/A"))
  {
    var price := Get(data, "31", Str("N/A"));
    var closing := ClosingPrice(price);
    Quote(if closing then Str(price.s[1..]) else price, Get(data, "83", Str("N/A")), closing)
  }

  /** `price_dict` for a list of requested conids: only those with a non-empty snapshot appear. */
  function PriceDict(conids: seq<string>, snapshots: map<string, Snapshot>): (r: map<string, Quote>)
    ensures forall c :: c in r <==> c in conids && c in snapshots && snapshots[c] != map[]
    ensures forall c :: c in r ==> r[c] == ShapeQuote(snapshots[c])
  {
    map c | c in conids && c in snapshots && snapshots[c] != map[] :: ShapeQuote(snapshots[c])
  }

  lemma PriceDictSnoc(conids: seq<string>, c: string, snapshots: map<string, Snapshot>)
    ensures PriceDict(conids + [c], snapshots)
      == if c in snapshots && snapshots[c] != map[] then PriceDict(conids, snapshots)[c := ShapeQuote(snapshots[c])]
         else PriceDict(conids, snapshots)
  {
  }

  /**
   * The loop of `api_prices`. `conidsArg` is the `conids` query argument
   * ('' when absent) and `snapshots` what `get_price_snapshots` returned for
   * its comma-separated pieces.
   */
  method ApiPrices(conidsArg: string, snapshots: map<string, Snapshot>) returns (r: map<string, Quote>)
    ensures conidsArg == "" ==> r == map[]
    ensures conidsArg != "" ==> r == PriceDict(Split(conidsArg, ','), snapshots)
  {
    if conidsArg == "" {
      return map[];
    }
    var conids := Split(conidsArg, ',');
    r := map[];
    for i := 0 to |conids|
      invariant r == PriceDict(conids[..i], snapshots)
    {
      var conid := conids[i];
      assert conids[..i + 1] == conids[..i] + [conid];
      PriceDictSnoc(conids[..i], conid, snapshots);
      if conid in snapshots && snapshots[conid] != map[] {
        var data := snapshots[conid];
        var price := Get(data, "31", Str("N/A"));
        var closing := price.Str? && StartsWith(price.s, "C");
        var quote := Quote(if closing then Str(price.s[1..]) else price, Get(data, "83", Str("N/A")), closing);
        assert quote == ShapeQuote(data);
        r := r[conid := quote];
      }
    }
    assert conids[..|conids|] == conids;
  }

  /** The requested conids, rejoined, give back the query argument; each requested conid is one piece. */
  lemma RequestedPieces(conidsArg: string, c: string)
    ensures c in Split(conidsArg, ',') ==> ',' !in c
    ensures Join(Split(conidsArg, ','), ',') == conidsArg
  {
    JoinSplit(conidsArg, ',');
  }

  /** A closing price is reported without its 'C', and putting the 'C' back gives the raw value. */
  lemma ClosingPriceStripped(p: string, change: Json)
    ensures var q := ShapeQuote(map["31" := Str("C" + p), "83" := change]);
      q == Quote(Str(p), change, true)
  {
    assert ("C" + p)[1..] == p;
  }

  /** A price that is not a string, or does not start with 'C', is reported unchanged. */
  lemma OtherPriceUnchanged(data: Snapshot)
    requires "31" in data && !ClosingPrice(data["31"])
    ensures ShapeQuote(data).price == data["31"] && !ShapeQuote(data).isClose
  {
  }
}
