/**
 * The earlier revision in tempCodeRunnerFile.py: an aggregator without the
 * skip guard, and a `home` that fetches and normalises the accounts one after
 * the other with no exception handling.
 */
module Legacy {
  import opened Wrappers
  import opened JsonValue
  import opened Seqs
  import opened AccountData
  import opened Aggregation
  import opened AggregationProperties
  import opened Dashboard

  /** Every record is a dict with a summary: the only input the earlier aggregator does not raise on. */
  predicate AllCounted(all: AllData)
  {
    forall i :: 0 <= i < |all| ==> Counted(all[i].1)
  }

  /**
   * The earlier `aggregate_portfolio_data`: the same loops with no guard, so a
   * `None` record (or one without a summary) raises where the later revision
   * skips it. On records that all have a summary it computes what the later
   * revision computes.
   */
  method LegacyAggregatePortfolioData(all: AllData) returns (r: Option<Portfolio>)
    ensures AllCounted(all) ==> r == Aggregate(all)
    ensures !AllCounted(all) ==> r == None
  {
    var summary := ZeroSummary;
    var book := Book([], map[]);
    if all == [] {
      assert FinalPositions(Fold(Flat(all))) == [];
      return Some(Portfolio(summary, []));
    }
    var i := 0;
    while i < |all|
      invariant 0 <= i <= |all|
      invariant AllCounted(all[..i])
      invariant AllSummable(Flat(all[..i]))
      invariant summary == SummaryTotal(all[..i])
      invariant book == Fold(Flat(all[..i]))
    {
      if !Counted(all[i].1) {
        // `data['summary']` on None, or on a record whose summary is missing: TypeError.
        NotAllCounted(all, i);
        return None;
      }
      var ok;
      ok, summary, book := AccumulateAccount(summary, book, all, i);
      if !ok {
        return None;
      }
      AllCountedStep(all, i);
      i := i + 1;
    }
    assert all[..i] == all;
    var finals := FinishPositions(book);
    r := Some(Portfolio(summary, finals));
  }

  lemma NotAllCounted(all: AllData, i: nat)
    requires i < |all| && !Counted(all[i].1)
    ensures !AllCounted(all)
  {
  }

  lemma AllCountedStep(all: AllData, i: nat)
    requires i < |all| && AllCounted(all[..i]) && Counted(all[i].1)
    ensures AllCounted(all[..i + 1])
  {
    var p := all[..i + 1];
    forall j | 0 <= j < |p| ensures Counted(p[j].1) {
      if j < i {
        assert p[j] == all[..i][j];
      }
    }
  }

  /** Some id's fetch or normalisation raises. */
  predicate SomeFetchFails(ids: seq<Json>, source: Source)
  {
    exists i :: 0 <= i < |ids| && Fetched(source, ids[i]).None?
  }

  /** What the earlier `home` renders: any failing account, or an id that cannot be a dict key, turns the whole page into a server error. */
  function LegacyHomePage(response: Option<Json>, source: Source): (page: Page)
    ensures response.None? ==> page == Login
    ensures response.Some? && AccountIds(response.value) == Some([]) ==> page == Login
    ensures response.Some? && AccountIds(response.value).Some? ==>
      var ids := AccountIds(response.value).value;
      && (ids != [] && (SomeFetchFails(ids, source) || !AllHashable(ids)) ==> page == ServerError)
      && (!SomeFetchFails(ids, source) ==> page == HomePage(response, source))
  {
    if response.None? then Login
    else match AccountIds(response.value)
      case None => ServerError
      case Some(ids) =>
        if ids == [] then Login
        else if SomeFetchFails(ids, source) || !AllHashable(ids) then ServerError
        else
          var all := Collected(ids, source);
          match Aggregate(all)
          case None => ServerError
          case Some(p) => Dashboard(all, p)
  }

  /** When no fetch fails, every collected record has a summary. */
  lemma CollectedAllCounted(ids: seq<Json>, source: Source)
    requires !SomeFetchFails(ids, source)
    ensures AllCounted(Collected(ids, source))
  {
    var all := Collected(ids, source);
    forall i | 0 <= i < |all| ensures Counted(all[i].1) {
      assert all[i].0 in Dedup(ids);
      var j :| 0 <= j < |ids| && ids[j] == all[i].0;
    }
  }

  /** A failing fetch at one position is a failing fetch of the list. */
  lemma FetchFailsAt(ids: seq<Json>, i: nat, source: Source)
    requires i < |ids| && Fetched(source, ids[i]).None?
    ensures SomeFetchFails(ids, source)
  {
  }

  /** A prefix with no failing fetch grows by one succeeding fetch. */
  lemma NoFetchFailsStep(ids: seq<Json>, i: nat, source: Source)
    requires i < |ids| && !SomeFetchFails(ids[..i], source) && Fetched(source, ids[i]).Some?
    ensures !SomeFetchFails(ids[..i + 1], source)
  {
    var p := ids[..i + 1];
    forall j | 0 <= j < |p| ensures Fetched(source, p[j]).Some? {
      if j < i {
        assert p[j] == ids[..i][j];
      }
    }
  }

  /**
   * The loop of the earlier `home`: fetch and normalise each id in turn, then
   * store the record under the id; the first failure, or an unhashable id,
   * raises.
   */
  method LegacyCollect(ids: seq<Json>, source: Source) returns (r: Option<AllData>)
    ensures r.None? <==> SomeFetchFails(ids, source) || !AllHashable(ids)
    ensures r.Some? ==> r.value == Collected(ids, source)
  {
    var all: AllData := [];
    for i := 0 to |ids|
      invariant all == Collected(ids[..i], source)
      invariant !SomeFetchFails(ids[..i], source)
      invariant forall j :: 0 <= j < i ==> Hashable(ids[j])
    {
      var pair := source(ids[i]);
      var rec := FetchAccountData(pair.0, pair.1);
      assert rec == Fetched(source, ids[i]);
      if rec.None? {
        FetchFailsAt(ids, i, source);
        return None;
      }
      if !Hashable(ids[i]) {
        // `all_data[acc_id] = {...}` with a list or dict id: TypeError.
        return None;
      }
      NoFetchFailsStep(ids, i, source);
      CollectStep(ids, i, source);
      all := Put(all, ids[i], rec);
    }
    assert ids[..|ids|] == ids;
    assert AllHashable(ids);
    r := Some(all);
  }

  /** The earlier `home`: a sequential loop over the ids, then the unguarded aggregator. */
  method LegacyHome(response: Option<Json>, source: Source) returns (page: Page)
    ensures page == LegacyHomePage(response, source)
  {
    if response.None? {
      return Login;
    }
    var ids := AccountIds(response.value);
    if ids.None? {
      return ServerError;
    }
    if ids.value == [] {
      return Login;
    }
    var collected := LegacyCollect(ids.value, source);
    if collected.None? {
      return ServerError;
    }
    var all := collected.value;
    CollectedAllCounted(ids.value, source);
    var aggregated := LegacyAggregatePortfolioData(all);
    if aggregated.None? {
      return ServerError;
    }
    page := Dashboard(all, aggregated.value);
  }

}
