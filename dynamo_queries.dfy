/** The two benchmark queries of `DynamoDBPerformanceAnalyzer` over the
    replicated `RegionalTrends` table: the regional top 10 and the global
    top 5 titles by summed views. Scans are inputs; a scan that raises is
    read as an empty table, as `scan_table` does. */
module DynamoQueries {

  import opened Values
  import opened StableSort
  import LoadTables

  /** The analyzer's `regions` map: AWS region code to region name. */
  const RegionNameOf: map<string, string> := map[
    "us-east-1" := "North America",
    "sa-east-1" := "South America",
    "eu-central-1" := "Europe",
    "ap-south-1" := "Asia"
  ]

  /** The keys of `regions`, in the order `regions.items()` yields them. */
  const CodeOrder: seq<string> := ["us-east-1", "sa-east-1", "eu-central-1", "ap-south-1"]

  /** The `engagement_metrics` attribute of a trend item. */
  datatype Engagement = Engagement(totalViews: int, totalLikes: int)

  /** One `RegionalTrends` item as the queries read it: `region`,
      `top_content` and `engagement_metrics`, each possibly absent. */
  datatype TrendItem = TrendItem(region: Option<string>, topContent: Option<string>, engagement: Option<Engagement>)

  /** What `table.scan()` did: answered (with or without an `Items` list)
      or raised. */
  datatype ScanOutcome = Response(items: Option<seq<TrendItem>>) | Raised

  /** A `(top_content, total_views)` pair of the global aggregate. */
  datatype TitleViews = TitleViews(title: string, views: int)

  /** `scan_table`: the items of a response, `[]` when it has none or the
      scan raised. */
  function ScanTable(outcome: ScanOutcome): (items: seq<TrendItem>)
    ensures outcome.Raised? ==> items == []
    ensures outcome.Response? && outcome.items.Some? ==> items == outcome.items.value
  {
    match outcome
    case Response(Some(items)) => items
    case _ => []
  }

  /** The error `x["engagement_metrics"]` raises on an item without metrics. */
  const MissingMetrics: Error := KeyError("engagement_metrics")

  // ---------------------------------------------------------------------------
  // Regional query

  /** The regional sort key: views, then likes, both descending. */
  function ItemRank(x: TrendItem): Rank {
    if x.engagement.Some? then Rank(x.engagement.value.totalViews, x.engagement.value.totalLikes) else Rank(0, 0)
  }

  /** `[item for item in items if item.get("region") == region]`. */
  function Matching(items: seq<TrendItem>, region: string): (m: seq<TrendItem>)
    ensures forall x :: x in m ==> x in items && x.region == Some(region)
    ensures forall x :: multiset(m)[x] == if x.region == Some(region) then multiset(items)[x] else 0
    ensures multiset(m) <= multiset(items)
  {
    if items == [] then []
    else
      assert items == [items[0]] + items[1..];
      (if items[0].region == Some(region) then [items[0]] else []) + Matching(items[1..], region)
  }

  predicate HasMetrics(items: seq<TrendItem>) {
    forall i :: 0 <= i < |items| ==> items[i].engagement.Some?
  }

  /** `regional_query`: the matching items, stably sorted by views and then
      likes (both descending), cut to the first 10. Computing a sort key
      raises KeyError on a matching item without metrics. */
  function RegionalQuery(scan: ScanOutcome, region: string): (r: Result<seq<TrendItem>>)
    ensures r.Ok? <==> HasMetrics(Matching(ScanTable(scan), region))
    ensures r.Err? ==> r.error == MissingMetrics
    ensures r.Ok? ==> |r.value| <= 10 && |r.value| <= |Matching(ScanTable(scan), region)|
    ensures r.Ok? ==> forall x :: x in r.value ==> x.region == Some(region) && x.engagement.Some?
  {
    var matching := Matching(ScanTable(scan), region);
    if !HasMetrics(matching) then Err(MissingMetrics)
    else
      var top := Take(SortDescending(matching, ItemRank), 10);
      assert forall x :: x in top ==> x in multiset(matching);
      Ok(top)
  }

  /** The regional result is ordered by views, ties by likes, both descending. */
  lemma RegionalQueryOrdered(scan: ScanOutcome, region: string)
    requires RegionalQuery(scan, region).Ok?
    ensures var r := RegionalQuery(scan, region).value;
      forall i, j :: 0 <= i < j < |r| ==>
        r[i].engagement.value.totalViews > r[j].engagement.value.totalViews
        || (r[i].engagement.value.totalViews == r[j].engagement.value.totalViews
            && r[i].engagement.value.totalLikes >= r[j].engagement.value.totalLikes)
  {
    var matching := Matching(ScanTable(scan), region);
    TopOfSorted(matching, ItemRank, 10);
  }

  /** The regional result is the best of the matching items: it has
      min(10, k) of the k matching items, none twice, and no matching item
      left out ranks above one that was kept. */
  lemma RegionalQueryTop(scan: ScanOutcome, region: string)
    requires RegionalQuery(scan, region).Ok?
    ensures var matching := Matching(ScanTable(scan), region);
      var r := RegionalQuery(scan, region).value;
      && |r| == (if |matching| <= 10 then |matching| else 10)
      && multiset(r) <= multiset(matching)
      && forall x, y :: x in r && y in multiset(matching) - multiset(r) ==> RanksAtLeast(ItemRank(x), ItemRank(y))
  {
    TopOfSorted(Matching(ScanTable(scan), region), ItemRank, 10);
  }

  /** Items of equal views and likes keep the order the scan returned them
      in: of the matching items with one rank, the result keeps the first
      ones, in scan order, and all of them when nothing is cut. */
  lemma RegionalQueryStable(scan: ScanOutcome, region: string, k: Rank)
    requires RegionalQuery(scan, region).Ok?
    ensures WithRank(RegionalQuery(scan, region).value, ItemRank, k) <= WithRank(Matching(ScanTable(scan), region), ItemRank, k)
    ensures |Matching(ScanTable(scan), region)| <= 10 ==>
      WithRank(RegionalQuery(scan, region).value, ItemRank, k) == WithRank(Matching(ScanTable(scan), region), ItemRank, k)
  {
    var matching := Matching(ScanTable(scan), region);
    SortIsStable(matching, ItemRank, k);
    TakeWithRank(SortDescending(matching, ItemRank), ItemRank, k, 10);
  }

  // ---------------------------------------------------------------------------
  // Global query

  /** `all_items` after the scan loop: the scans of the codes in `codes`,
      concatenated in order. */
  function AllItems(scanOf: string -> ScanOutcome, codes: seq<string>): seq<TrendItem> {
    if codes == [] then [] else AllItems(scanOf, codes[..|codes| - 1]) + ScanTable(scanOf(codes[|codes| - 1]))
  }

  /** The title an item is counted under: its `top_content` when truthy. */
  predicate CountedUnder(x: TrendItem, title: string) {
    x.topContent == Some(title) && title != ""
  }

  /** The keys of `aggregated`, in the order they were first inserted. */
  function FirstTitles(items: seq<TrendItem>): seq<string> {
    if items == [] then []
    else
      var titles := FirstTitles(items[..|items| - 1]);
      var x := items[|items| - 1];
      if x.topContent.Some? && x.topContent.value != "" && x.topContent.value !in titles
      then titles + [x.topContent.value] else titles
  }

  /** The views summed into `aggregated[title]`. */
  function TitleTotal(items: seq<TrendItem>, title: string): int
    requires HasMetrics(items)
  {
    if items == [] then 0
    else
      var x := items[|items| - 1];
      TitleTotal(items[..|items| - 1], title) + (if CountedUnder(x, title) then x.engagement.value.totalViews else 0)
  }

  /** `aggregated.items()`: each counted title with its total, in insertion order. */
  function Aggregate(items: seq<TrendItem>): seq<TitleViews>
    requires HasMetrics(items)
  {
    var titles := FirstTitles(items);
    seq(|titles|, k requires 0 <= k < |titles| => TitleViews(titles[k], TitleTotal(items, titles[k])))
  }

  function ViewsRank(p: TitleViews): Rank {
    Rank(p.views, 0)
  }

  /** What `global_query` returns for the given scans: KeyError if any
      scanned item lacks metrics, otherwise the aggregate stably sorted by
      total views, descending, cut to the first 5. */
  function GlobalResult(scanOf: string -> ScanOutcome): Result<seq<TitleViews>> {
    var all := AllItems(scanOf, CodeOrder);
    if !HasMetrics(all) then Err(MissingMetrics)
    else Ok(Take(SortDescending(Aggregate(all), ViewsRank), 5))
  }

  /** `global_query`: scan the four regions in order, sum views per truthy
      `top_content`, sort by total descending and keep 5. */
  method GlobalQuery(scanOf: string -> ScanOutcome) returns (result: Result<seq<TitleViews>>)
    ensures result == GlobalResult(scanOf)
  {
    var allItems: seq<TrendItem> := [];
    for i := 0 to |CodeOrder|
      invariant allItems == AllItems(scanOf, CodeOrder[..i])
    {
      assert CodeOrder[..i + 1][..i] == CodeOrder[..i];
      allItems := allItems + ScanTable(scanOf(CodeOrder[i]));
    }
    assert CodeOrder[..|CodeOrder|] == CodeOrder;
    var totals: map<string, int> := map[];
    var titles: seq<string> := [];
    for i := 0 to |allItems|
      invariant HasMetrics(allItems[..i])
      invariant titles == FirstTitles(allItems[..i])
      invariant forall t :: t in totals <==> t in titles
      invariant forall t :: t in totals ==> totals[t] == TitleTotal(allItems[..i], t)
    {
      var item := allItems[i];
      assert allItems[..i + 1][..i] == allItems[..i];
      if item.engagement.None? {
        assert !HasMetrics(allItems);
        return Err(MissingMetrics);
      }
      var views := item.engagement.value.totalViews;
      assert HasMetrics(allItems[..i + 1]);
      TitleTotalStep(allItems, i);
      if item.topContent.Some? && item.topContent.value != "" {
        var title := item.topContent.value;
        if title in totals {
          totals := totals[title := totals[title] + views];
        } else {
          TitleTotalUncounted(allItems[..i], title);
          totals := totals[title := views];
          titles := titles + [title];
        }
      }
    }
    assert allItems[..|allItems|] == allItems;
    var pairs := seq(|titles|, k requires 0 <= k < |titles| => TitleViews(titles[k], totals[titles[k]]));
    assert pairs == Aggregate(allItems);
    result := Ok(Take(SortDescending(pairs, ViewsRank), 5));
  }

  lemma TitleTotalStep(items: seq<TrendItem>, i: nat)
    requires i < |items| && HasMetrics(items[..i + 1])
    ensures HasMetrics(items[..i])
    ensures forall t :: (TitleTotal(items[..i + 1], t)
      == TitleTotal(items[..i], t) + (if CountedUnder(items[i], t) then items[i].engagement.value.totalViews else 0))
  {
    assert items[..i + 1][..i] == items[..i];
  }

  /** A title that was never inserted has total zero. */
  lemma {:induction false} TitleTotalUncounted(items: seq<TrendItem>, title: string)
    requires HasMetrics(items)
    requires title !in FirstTitles(items)
    ensures TitleTotal(items, title) == 0
  {
    if items != [] {
      var init := items[..|items| - 1];
      assert HasMetrics(init);
      assert title !in FirstTitles(init);
      TitleTotalUncounted(init, title);
    }
  }

  predicate DistinctTitles(ps: seq<TitleViews>) {
    forall i, j :: 0 <= i < j < |ps| ==> ps[i].title != ps[j].title
  }

  /** The keys of `aggregated` are the counted titles, each once. */
  lemma {:induction false} FirstTitlesMembers(items: seq<TrendItem>)
    ensures forall i, j :: 0 <= i < j < |FirstTitles(items)| ==> FirstTitles(items)[i] != FirstTitles(items)[j]
    ensures forall t :: t in FirstTitles(items) <==> exists x :: x in items && CountedUnder(x, t)
  {
    if items != [] {
      var init := items[..|items| - 1];
      var x := items[|items| - 1];
      FirstTitlesMembers(init);
      assert items == init + [x];
      forall t | t in FirstTitles(items)
        ensures exists y :: y in items && CountedUnder(y, t)
      {
        if t in FirstTitles(init) {
          var y :| y in init && CountedUnder(y, t);
          assert y in items;
        } else {
          assert CountedUnder(x, t);
        }
      }
      forall t | exists y :: y in items && CountedUnder(y, t)
        ensures t in FirstTitles(items)
      {
        var y :| y in items && CountedUnder(y, t);
        if y != x {
          assert y in init;
        }
      }
    }
  }

  /** A sequence in which no element occurs twice holds each once. */
  lemma {:induction false} DistinctCount<T>(s: seq<T>, x: T)
    requires forall i, j :: 0 <= i < j < |s| ==> s[i] != s[j]
    ensures multiset(s)[x] <= 1
  {
    if s != [] {
      var init := s[..|s| - 1];
      DistinctCount(init, x);
      assert s == init + [s[|s| - 1]];
      if s[|s| - 1] == x {
        assert x !in init;
      }
    }
  }

  /** A part of a sequence of pairwise-distinct titles has distinct titles,
      when each title comes with only one total. */
  lemma SubDistinct(top: seq<TitleViews>, all: seq<TitleViews>)
    requires DistinctTitles(all)
    requires multiset(top) <= multiset(all)
    ensures DistinctTitles(top)
  {
    forall i, j | 0 <= i < j < |top|
      ensures top[i].title != top[j].title
    {
      if top[i].title == top[j].title {
        assert top[i] in multiset(all) && top[j] in multiset(all);
        var a :| 0 <= a < |all| && all[a] == top[i];
        var b :| 0 <= b < |all| && all[b] == top[j];
        assert a == b;
        assert top == top[..i] + [top[i]] + top[i + 1..j] + [top[j]] + top[j + 1..];
        assert multiset(top)[top[i]] >= 2;
        DistinctCount(all, top[i]);
      }
    }
  }

  /** The aggregate pairs each counted title, once, with its total. */
  lemma AggregateFacts(items: seq<TrendItem>)
    requires HasMetrics(items)
    ensures DistinctTitles(Aggregate(items))
    ensures forall p :: p in Aggregate(items) ==>
      (exists x :: x in items && CountedUnder(x, p.title)) && p.views == TitleTotal(items, p.title)
    ensures forall t :: (exists x :: x in items && CountedUnder(x, t)) ==> TitleViews(t, TitleTotal(items, t)) in Aggregate(items)
  {
    FirstTitlesMembers(items);
    var pairs := Aggregate(items);
    forall t | exists x :: x in items && CountedUnder(x, t)
      ensures TitleViews(t, TitleTotal(items, t)) in pairs
    {
      assert t in FirstTitles(items);
      var k :| 0 <= k < |FirstTitles(items)| && FirstTitles(items)[k] == t;
      assert pairs[k] == TitleViews(t, TitleTotal(items, t));
    }
    forall p | p in pairs
      ensures (exists x :: x in items && CountedUnder(x, p.title)) && p.views == TitleTotal(items, p.title)
    {
      var k :| 0 <= k < |pairs| && pairs[k] == p;
      assert p.title in FirstTitles(items);
    }
  }

  /** `global_query` returns min(5, k) pairs for the k counted titles, their
      titles pairwise distinct, each the total of the views of the items
      counted under that title. */
  lemma GlobalQueryShape(scanOf: string -> ScanOutcome)
    requires GlobalResult(scanOf).Ok?
    ensures var all := AllItems(scanOf, CodeOrder);
      var r := GlobalResult(scanOf).value;
      && |r| == (if |FirstTitles(all)| <= 5 then |FirstTitles(all)| else 5)
      && DistinctTitles(r)
      && forall p :: p in r ==> (exists x :: x in all && CountedUnder(x, p.title)) && p.views == TitleTotal(all, p.title)
  {
    var all := AllItems(scanOf, CodeOrder);
    var pairs := Aggregate(all);
    var r := Take(SortDescending(pairs, ViewsRank), 5);
    AggregateFacts(all);
    TopOfSorted(pairs, ViewsRank, 5);
    SubDistinct(r, pairs);
    forall p | p in r
      ensures p in pairs
    {
      assert p in multiset(pairs);
    }
  }

  /** `global_query` totals never increase along the result. */
  lemma GlobalQueryOrdered(scanOf: string -> ScanOutcome)
    requires GlobalResult(scanOf).Ok?
    ensures var r := GlobalResult(scanOf).value;
      forall i, j :: 0 <= i < j < |r| ==> r[i].views >= r[j].views
  {
    var all := AllItems(scanOf, CodeOrder);
    SortIsDescending(Aggregate(all), ViewsRank);
  }

  /** `global_query` keeps the best: every counted title it leaves out has a
      total no larger than any total it returns. */
  lemma GlobalQueryTop(scanOf: string -> ScanOutcome, title: string)
    requires GlobalResult(scanOf).Ok?
    requires exists x :: x in AllItems(scanOf, CodeOrder) && CountedUnder(x, title)
    requires forall p :: p in GlobalResult(scanOf).value ==> p.title != title
    ensures forall p :: p in GlobalResult(scanOf).value ==> p.views >= TitleTotal(AllItems(scanOf, CodeOrder), title)
  {
    var all := AllItems(scanOf, CodeOrder);
    AggregateFacts(all);
    LeftOutOfTop(Aggregate(all), ViewsRank, 5, TitleViews(title, TitleTotal(all, title)));
  }

  /** Titles with equal totals keep the order in which they were first
      inserted into `aggregated`: of the titles with one total, the result
      keeps the first ones, in that order. */
  lemma GlobalQueryStable(scanOf: string -> ScanOutcome, total: int)
    requires GlobalResult(scanOf).Ok?
    ensures var all := AllItems(scanOf, CodeOrder);
      WithRank(GlobalResult(scanOf).value, ViewsRank, Rank(total, 0)) <= WithRank(Aggregate(all), ViewsRank, Rank(total, 0))
  {
    var all := AllItems(scanOf, CodeOrder);
    SortIsStable(Aggregate(all), ViewsRank, Rank(total, 0));
    TakeWithRank(SortDescending(Aggregate(all), ViewsRank), ViewsRank, Rank(total, 0), 5);
  }

  /** A scan that raises contributes no items to the global query. */
  lemma FailedScanContributesNothing(scanOf: string -> ScanOutcome, code: string)
    requires scanOf(code).Raised?
    ensures forall x :: x in AllItems(scanOf, CodeOrder) ==>
      exists c :: c in CodeOrder && c != code && x in ScanTable(scanOf(c))
  {
    AllItemsFrom(scanOf, CodeOrder, code);
  }

  lemma {:induction false} AllItemsFrom(scanOf: string -> ScanOutcome, codes: seq<string>, code: string)
    requires scanOf(code).Raised?
    ensures forall x :: x in AllItems(scanOf, codes) ==>
      exists c :: c in codes && c != code && x in ScanTable(scanOf(c))
  {
    if codes != [] {
      var init := codes[..|codes| - 1];
      var last := codes[|codes| - 1];
      AllItemsFrom(scanOf, init, code);
      forall x | x in AllItems(scanOf, codes)
        ensures exists c :: c in codes && c != code && x in ScanTable(scanOf(c))
      {
        if x in AllItems(scanOf, init) {
          var c :| c in init && c != code && x in ScanTable(scanOf(c));
          assert c in codes;
        } else {
          assert last in codes && x in ScanTable(scanOf(last));
        }
      }
    }
  }

  /** The analyzer's code-to-name map is the exact inverse of the loader's
      name-to-code map, and lists the codes in the same order. */
  lemma RegionMapsInverse()
    ensures forall code :: code in RegionNameOf ==>
      RegionNameOf[code] in LoadTables.RegionCodes && LoadTables.RegionCodes[RegionNameOf[code]] == code
    ensures forall name :: name in LoadTables.RegionCodes ==>
      LoadTables.RegionCodes[name] in RegionNameOf && RegionNameOf[LoadTables.RegionCodes[name]] == name
    ensures CodeOrder == LoadTables.RegionCodeOrder()
  {
  }
}
