/** The `regional_trends` loader: routing by region through a lookup table,
    and the bulk action built for each trend. */
module EsRegionalTrends {

  import opened Values
  import opened Bulk

  const IndexName: string := "regional_trends"

  /** The fields copied into `_source`. */
  const SourceFields: seq<string> := ["region", "top_content", "engagement_metrics"]

  /** `routing_map` of `get_routing_key`. */
  const RoutingMap: map<string, string> := map[
    "North America" := "0",
    "Europe" := "1",
    "Asia" := "2",
    "South America" := "3"
  ]

  /** `get_routing_key`: the region's shard in `routing_map`, "0" for any
      other hashable value, TypeError for a list or dict. */
  function RoutingKey(region: Value): (r: Result<string>)
    ensures r.Ok? <==> Hashable(region)
    ensures r.Ok? ==> r.value in {"0", "1", "2", "3"}
    ensures region == Str("North America") ==> r == Ok("0")
    ensures region == Str("Europe") ==> r == Ok("1")
    ensures region == Str("Asia") ==> r == Ok("2")
    ensures region == Str("South America") ==> r == Ok("3")
    ensures r.Ok? && !(region.Str? && region.s in RoutingMap) ==> r.value == "0"
  {
    RouteBy(RoutingMap, region)
  }

  /** The four regions go to four different shards. */
  lemma RoutingDistinct(r1: string, r2: string)
    requires r1 in RoutingMap && r2 in RoutingMap && r1 != r2
    ensures RoutingKey(Str(r1)).value != RoutingKey(Str(r2)).value
  {
  }

  /** One iteration of `generate_documents`. */
  function TrendAction(item: Value): (r: Result<Action>)
    ensures r.Ok? ==>
      && item.Dict? && "_id" in item.fields && item.fields["_id"].Dict? && "$oid" in item.fields["_id"].fields
      && "region" in item.fields && RoutingKey(item.fields["region"]).Ok?
      && r.value == Action(None, IndexName, item.fields["_id"].fields["$oid"], "routing",
                           RoutingKey(item.fields["region"]).value, r.value.source)
      && (forall k :: k in r.value.source <==> k in SourceFields)
      && forall k :: k in r.value.source ==> k in item.fields && r.value.source[k] == item.fields[k]
    ensures (item.Dict? && "_id" in item.fields && item.fields["_id"].Dict? && "$oid" in item.fields["_id"].fields
      && (forall k :: k in SourceFields ==> k in item.fields) && Hashable(item.fields["region"])) ==> r.Ok?
  {
    var holder :- Subscript(item, "_id");
    var id :- Subscript(holder, "$oid");
    var source :- CopyFields(item.fields, SourceFields);
    var routing :- RoutingKey(item.fields["region"]);
    Ok(Action(None, IndexName, id, "routing", routing, source))
  }

  /** `generate_documents(data)`. */
  function Documents(items: seq<Value>): Generated {
    GenerateAll(items, TrendAction)
  }

  /** Well-formed trends all yield an action, one per trend, in order, each
      routed by its own region. */
  lemma DocumentsFaithful(items: seq<Value>)
    requires forall i :: 0 <= i < |items| ==> TrendAction(items[i]).Ok?
    ensures var g := Documents(items);
      && g.failure.None? && |g.actions| == |items|
      && forall i :: 0 <= i < |items| ==>
        && g.actions[i].id == items[i].fields["_id"].fields["$oid"]
        && g.actions[i].routing == RoutingKey(items[i].fields["region"]).value
  {
    GenerateAllComplete(items, TrendAction);
  }
}
