/** The `interaction_history` loader: routing by a hash of the user id, and
    the bulk action built for each interaction. SHA-256 is an input `hash`
    from strings to naturals: the digest read as an integer. */
module EsInteractionHistory {

  import opened Values
  import opened Bulk
  import opened Decimal

  const IndexName: string := "interaction_history"

  /** The fields copied into `_source`. */
  const SourceFields: seq<string> := ["user_id", "content_id", "interaction_type", "timestamp"]

  /** `get_routing_key`: `str(hash(user_id) % 4)`; only strings have
      `encode`, anything else raises AttributeError. */
  function RoutingKey(hash: string -> nat, userId: Value): (r: Result<string>)
    ensures r.Ok? <==> userId.Str?
    ensures r.Ok? ==> r.value in {"0", "1", "2", "3"}
    ensures r.Ok? ==> ParseInt(r.value) == Some(hash(userId.s) % 4)
  {
    if !userId.Str? then Err(AttributeError)
    else
      var shard := hash(userId.s) % 4;
      IntToStringRoundTrip(shard);
      Ok(NatToString(shard))
  }

  /** An interaction `generate_documents` turns into an action: `$oid`
      present, a string `user_id`, and every copied field present. */
  predicate InteractionReady(item: Value) {
    && item.Dict? && "_id" in item.fields && item.fields["_id"].Dict? && "$oid" in item.fields["_id"].fields
    && "user_id" in item.fields && item.fields["user_id"].Str?
    && forall k :: k in SourceFields ==> k in item.fields
  }

  /** One iteration of `generate_documents`. */
  function InteractionAction(hash: string -> nat, item: Value): (r: Result<Action>)
    ensures r.Ok? ==>
      && item.Dict? && "_id" in item.fields && item.fields["_id"].Dict? && "$oid" in item.fields["_id"].fields
      && "user_id" in item.fields && item.fields["user_id"].Str?
      && r.value == Action(None, IndexName, item.fields["_id"].fields["$oid"], "routing",
                           RoutingKey(hash, item.fields["user_id"]).value, r.value.source)
      && (forall k :: k in r.value.source <==> k in SourceFields)
      && forall k :: k in r.value.source ==> k in item.fields && r.value.source[k] == item.fields[k]
    ensures InteractionReady(item) ==> r.Ok?
  {
    var holder :- Subscript(item, "_id");
    var id :- Subscript(holder, "$oid");
    var userId :- Subscript(item, "user_id");
    var routing :- RoutingKey(hash, userId);
    var source :- CopyFields(item.fields, SourceFields);
    Ok(Action(None, IndexName, id, "routing", routing, source))
  }

  /** `generate_documents(data)`. */
  function Documents(hash: string -> nat, items: seq<Value>): Generated {
    GenerateAll(items, item => InteractionAction(hash, item))
  }

  /** When every interaction is well formed, the generator runs to its end
      with one action per interaction, in order, each carrying its `$oid`
      and routed by its user id. */
  lemma DocumentsComplete(hash: string -> nat, items: seq<Value>)
    requires forall i :: 0 <= i < |items| ==> InteractionReady(items[i])
    ensures var g := Documents(hash, items);
      && g.failure.None? && |g.actions| == |items|
      && forall i :: 0 <= i < |items| ==>
        && g.actions[i].id == items[i].fields["_id"].fields["$oid"]
        && g.actions[i].routing == RoutingKey(hash, items[i].fields["user_id"]).value
  {
    GenerateAllComplete(items, item => InteractionAction(hash, item));
  }

  /** All interactions of one user go to the same shard. */
  lemma SameUserSameShard(hash: string -> nat, items: seq<Value>, i: nat, j: nat)
    requires var g := Documents(hash, items); i < |g.actions| && j < |g.actions|
    requires items[i].fields["user_id"] == items[j].fields["user_id"]
    ensures Documents(hash, items).actions[i].routing == Documents(hash, items).actions[j].routing
  {
    var build := item => InteractionAction(hash, item);
    assert build(items[i]).Ok? && build(items[j]).Ok?;
  }
}
