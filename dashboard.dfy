/**
 * The home page of app/main.py: the account-id filter of
 * `get_all_account_ids`, the collection of every account's record into
 * `all_data`, and the page `home` renders.
 */
module Dashboard {
  import opened Wrappers
  import opened JsonValue
  import opened Seqs
  import opened AccountData
  import opened Aggregation
  import opened AggregationProperties

  // ---------------------------------------------------------------------
  // Account ids
  // ---------------------------------------------------------------------

  /** `acc.get('accountId')`. */
  function AccountIdOf(acc: map<string, Json>): Json
  {
    Get(acc, "accountId", Null)
  }

  /** The comprehension filter: the truthy `accountId` of each account dict, in input order. */
  function TruthyIds(items: seq<Json>): (r: seq<Json>)
    requires AllObjects(items)
    ensures |r| <= |items|
    ensures forall x :: x in r ==> Truthy(x)
    ensures forall i :: 0 <= i < |items| && Truthy(AccountIdOf(items[i].fields)) ==> AccountIdOf(items[i].fields) in r
  {
    if items == [] then []
    else
      var p := items[..|items| - 1];
      var id := AccountIdOf(items[|items| - 1].fields);
      assert forall i :: 0 <= i < |p| ==> p[i] == items[i];
      TruthyIds(p) + (if Truthy(id) then [id] else [])
  }

  /**
   * What `get_all_account_ids` returns for a status-200 body: the filtered
   * ids for a list, `[]` for any other JSON value, and `None` when an element
   * of the list is not a dict (`acc.get` raises, and `home` fails).
   */
  function AccountIds(body: Json): Option<seq<Json>>
  {
    if !body.Arr? then Some([])
    else if !AllObjects(body.items) then None
    else Some(TruthyIds(body.items))
  }

  /** The filter keeps input order: it distributes over concatenation. */
  lemma {:induction false} TruthyIdsConcat(a: seq<Json>, b: seq<Json>)
    requires AllObjects(a) && AllObjects(b)
    ensures AllObjects(a + b)
    ensures TruthyIds(a + b) == TruthyIds(a) + TruthyIds(b)
    decreases |b|
  {
    assert forall i :: 0 <= i < |a + b| ==> (a + b)[i] == if i < |a| then a[i] else b[i - |a|];
    if b == [] {
      assert a + b == a;
    } else {
      var b' := b[..|b| - 1];
      assert (a + b)[..|a + b| - 1] == a + b';
      assert b[..|b| - 1] == b';
      TruthyIdsConcat(a, b');
    }
  }

  /** Every id the filter returns is the `accountId` of some input dict. */
  lemma {:induction false} TruthyIdsSound(items: seq<Json>, x: Json)
    requires AllObjects(items) && x in TruthyIds(items)
    ensures exists i :: 0 <= i < |items| && AccountIdOf(items[i].fields) == x
  {
    var p := items[..|items| - 1];
    var id := AccountIdOf(items[|items| - 1].fields);
    assert AllObjects(p);
    if x in TruthyIds(p) {
      TruthyIdsSound(p, x);
      var i :| 0 <= i < |p| && AccountIdOf(p[i].fields) == x;
      assert items[i] == p[i];
    } else {
      assert x == id;
    }
  }

  /** `min(len(account_ids), 10)`: at least one worker for a non-empty id list, and at most ten. */
  function MaxWorkers(n: nat): (w: nat)
    ensures w <= n && w <= 10
    ensures w == n || w == 10
  {
    if n < 10 then n else 10
  }

  // ---------------------------------------------------------------------
  // Collecting all_data
  // ---------------------------------------------------------------------

  /**
   * The data source: for an account id, the JSON bodies that
   * `get_account_summary` and `get_account_positions` return.
   */
  type Source = Json -> (Json, Json)

  /** The outcome of one `fetch_account_data` future: the record, or `None` when it raised. */
  function Fetched(source: Source, id: Json): Option<AccountRecord>
  {
    Normalized(source(id).0, source(id).1)
  }

  /** `d[k] = v` on an insertion-ordered dict: an existing key keeps its place, a new key goes last. */
  function Put(d: AllData, k: AccountId, v: Option<AccountRecord>): (r: AllData)
    ensures Ids(r) == if k in Ids(d) then Ids(d) else Ids(d) + [k]
    ensures forall i :: 0 <= i < |r| ==> r[i] == if i < |d| && d[i].0 != k then d[i] else (k, v)
  {
    seq(|d|, i requires 0 <= i < |d| => if d[i].0 == k then (k, v) else d[i]) + (if k in Ids(d) then [] else [(k, v)])
  }

  /** The collected `all_data`: one entry per distinct account id, in first-seen order, holding that id's outcome. */
  function Collected(ids: seq<Json>, source: Source): (all: AllData)
    ensures Ids(all) == Dedup(ids)
    ensures forall i :: 0 <= i < |all| ==> all[i].1 == Fetched(source, all[i].0)
  {
    var keys := Dedup(ids);
    seq(|keys|, i requires 0 <= i < |keys| => (keys[i], Fetched(source, keys[i])))
  }

  lemma IdsDetermine(x: AllData, y: AllData, source: Source)
    requires Ids(x) == Ids(y)
    requires forall i :: 0 <= i < |x| ==> x[i].1 == Fetched(source, x[i].0)
    requires forall i :: 0 <= i < |y| ==> y[i].1 == Fetched(source, y[i].0)
    ensures x == y
  {
    assert |x| == |Ids(x)|;
    forall i | 0 <= i < |x| ensures x[i] == y[i] {
      assert x[i].0 == Ids(x)[i] == Ids(y)[i] == y[i].0;
    }
  }

  /** Storing the next future's outcome extends the collection by that id. */
  lemma PutCollected(ids: seq<Json>, x: Json, source: Source)
    ensures Put(Collected(ids, source), x, Fetched(source, x)) == Collected(ids + [x], source)
  {
    DedupAppend(ids, x);
    var r := Put(Collected(ids, source), x, Fetched(source, x));
    IdsDetermine(r, Collected(ids + [x], source), source);
  }

  lemma CollectStep(ids: seq<Json>, i: nat, source: Source)
    requires i < |ids|
    ensures Collected(ids[..i + 1], source) == Put(Collected(ids[..i], source), ids[i], Fetched(source, ids[i]))
  {
    assert ids[..i + 1] == ids[..i] + [ids[i]];
    PutCollected(ids[..i], ids[i], source);
  }

  /** Every id can be a dict key: `all_data[acc_id] = ...` raises `TypeError` on a list or dict id. */
  predicate AllHashable(ids: seq<Json>)
  {
    forall i :: 0 <= i < |ids| ==> Hashable(ids[i])
  }

  /**
   * The `all_data` loop of `home`, run sequentially: each id's summary and
   * positions are fetched and normalised, and the outcome stored under the id.
   * Storing under an unhashable id raises, the `except` clause's own store
   * raises again, and the exception leaves `home` (`None`).
   */
  method CollectAllData(ids: seq<Json>, source: Source) returns (r: Option<AllData>)
    ensures r.None? <==> !AllHashable(ids)
    ensures r.Some? ==> r.value == Collected(ids, source)
  {
    var all: AllData := [];
    for i := 0 to |ids|
      invariant all == Collected(ids[..i], source)
      invariant forall j :: 0 <= j < i ==> Hashable(ids[j])
    {
      var (summaryRaw, positionsRaw) := source(ids[i]);
      var rec := FetchAccountData(summaryRaw, positionsRaw);
      if !Hashable(ids[i]) {
        return None;
      }
      CollectStep(ids, i, source);
      all := Put(all, ids[i], rec);
    }
    assert ids[..|ids|] == ids;
    r := Some(all);
  }

  /** Exactly one key per account id. */
  lemma CollectedKeys(ids: seq<Json>, source: Source)
    ensures DistinctIds(Collected(ids, source))
    ensures forall x :: x in Ids(Collected(ids, source)) <==> x in ids
    ensures |Collected(ids, source)| <= |ids|
  {
    var all := Collected(ids, source);
    assert forall i :: 0 <= i < |all| ==> all[i].0 == Dedup(ids)[i];
  }

  /** A fetch that raises is stored as `None`, and the aggregation then ignores that account. */
  lemma FailedFetchIgnored(ids: seq<Json>, source: Source, k: nat)
    requires k < |Collected(ids, source)| && Fetched(source, Collected(ids, source)[k].0).None?
    ensures var all := Collected(ids, source);
      && all[k].1 == None
      && Aggregate(all) == Aggregate(all[..k] + all[k + 1..])
  {
    var all := Collected(ids, source);
    assert all == all[..k] + [all[k]] + all[k + 1..];
    SkippedAccountIgnored(all[..k], all[k], all[k + 1..]);
  }

  /** A non-numeric summary amount makes the fetch raise: that account is stored as `None`. */
  lemma NonNumericAmountStoredAsNone(ids: seq<Json>, source: Source, k: nat, f: SummaryField)
    requires k < |Collected(ids, source)|
    requires var (s, _) := source(Collected(ids, source)[k].0);
      s.Obj? && RawKey(f) in s.fields && s.fields[RawKey(f)].Obj? && RawAmount(s.fields, RawKey(f)).None?
    ensures Collected(ids, source)[k].1 == None
  {
  }

  // ---------------------------------------------------------------------
  // The page
  // ---------------------------------------------------------------------

  datatype Page = Login | Dashboard(allData: AllData, aggregated: Portfolio) | ServerError

  /**
   * What `home` renders. `response` is the body of a status-200 answer to
   * the accounts request, or `None` when the request failed or answered
   * another status.
   */
  function HomePage(response: Option<Json>, source: Source): (page: Page)
    ensures response.None? ==> page == Login
    ensures response.Some? && AccountIds(response.value) == Some([]) ==> page == Login
    ensures response.Some? && AccountIds(response.value).None? ==> page == ServerError
    ensures response.Some? && AccountIds(response.value).Some? ==>
      var ids := AccountIds(response.value).value;
      && (ids != [] && !AllHashable(ids) ==> page == ServerError)
      && (ids != [] && AllHashable(ids) && Aggregate(Collected(ids, source)).None? ==> page == ServerError)
      && (ids != [] && AllHashable(ids) && Aggregate(Collected(ids, source)).Some? ==>
            page == Dashboard(Collected(ids, source), Aggregate(Collected(ids, source)).value))
    ensures page.Dashboard? ==>
      && response.Some? && AccountIds(response.value).Some?
      && var ids := AccountIds(response.value).value;
      && ids != [] && AllHashable(ids)
      && page.allData == Collected(ids, source)
      && Some(page.aggregated) == Aggregate(page.allData)
  {
    if response.None? then Login
    else match AccountIds(response.value)
      case None => ServerError
      case Some(ids) =>
        if ids == [] then Login
        else if !AllHashable(ids) then ServerError
        else
          var all := Collected(ids, source);
          match Aggregate(all)
          case None => ServerError
          case Some(p) => Dashboard(all, p)
  }

  method Home(response: Option<Json>, source: Source) returns (page: Page)
    ensures page == HomePage(response, source)
  {
    if response.None? {
      return Login;
    }
    var ids := AccountIds(response.value);
    if ids.None? {
      return ServerError;
    }
    if ids.value == [] {
      return Login;
    }
    var workers := MaxWorkers(|ids.value|);
    assert workers > 0;
    var collected := CollectAllData(ids.value, source);
    if collected.None? {
      return ServerError;
    }
    var all := collected.value;
    var aggregated := AggregatePortfolioData(all);
    if aggregated.None? {
      return ServerError;
    }
    page := Dashboard(all, aggregated.value);
  }
}
