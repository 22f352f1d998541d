/** The `users` loader: routing by location to one of four shards, and the
    bulk action built for each user. */
module EsUsers {

  import opened Values
  import opened Bulk

  const IndexName: string := "users"

  /** The fields copied into `_source`, in the order the literal lists them. */
  const SourceFields: seq<string> := ["user_id", "name", "location", "latitude", "longitude", "profile"]

  /** `get_routing_key`: the if/elif chain on the location. */
  function RoutingKey(location: Value): (key: string)
    ensures key in {"0", "1", "2", "3"}
    ensures location == Str("Asia") ==> key == "0"
    ensures location == Str("North America") ==> key == "1"
    ensures location == Str("South America") ==> key == "2"
    ensures location == Str("Europe") ==> key == "3"
    ensures location !in {Str("Asia"), Str("North America"), Str("South America"), Str("Europe")} ==> key == "0"
  {
    if location == Str("Asia") then "0"
    else if location == Str("North America") then "1"
    else if location == Str("South America") then "2"
    else if location == Str("Europe") then "3"
    else "0"
  }

  /** `user.get("_id", {}).get("$oid")`: AttributeError when the user or its
      `_id` is not a dict, `Null` when `$oid` is missing. */
  function OidOf(user: Value): (r: Result<Value>)
    ensures r.Ok? <==> user.Dict? && ("_id" in user.fields ==> user.fields["_id"].Dict?)
    ensures r.Ok? && "_id" in user.fields && "$oid" in user.fields["_id"].fields ==> r.value == user.fields["_id"].fields["$oid"]
    ensures r.Ok? && ("_id" !in user.fields || "$oid" !in user.fields["_id"].fields) ==> r.value == Null
  {
    var holder :- DictGet(user, "_id", Dict(map[]));
    DictGet(holder, "$oid", Null)
  }

  /** A user `generate_documents` turns into an action: a dict whose `_id`
      (when present) is a dict with a truthy `$oid`, holding every copied
      field. */
  predicate UserReady(user: Value) {
    && user.Dict?
    && OidOf(user).Ok? && Truthy(OidOf(user).value)
    && forall k :: k in SourceFields ==> k in user.fields
  }

  /** One iteration of `generate_documents`: a falsy `$oid` raises
      ValueError; otherwise the action indexes the user under that id, routed
      by location, with the six fields copied. */
  function UserAction(user: Value): (r: Result<Action>)
    ensures OidOf(user).Ok? && !Truthy(OidOf(user).value) ==> r == Err(ValueError)
    ensures UserReady(user) ==> r.Ok?
    ensures r.Ok? ==>
      && user.Dict?
      && OidOf(user).Ok? && Truthy(OidOf(user).value)
      && "location" in user.fields
      && r.value == Action(Some("index"), IndexName, OidOf(user).value, "_routing",
                           RoutingKey(user.fields["location"]), r.value.source)
      && (forall k :: k in r.value.source <==> k in SourceFields)
      && forall k :: k in r.value.source ==> k in user.fields && r.value.source[k] == user.fields[k]
  {
    var userId :- OidOf(user);
    if !Truthy(userId) then Err(ValueError)
    else
      var location :- Subscript(user, "location");
      var source :- CopyFields(user.fields, SourceFields);
      Ok(Action(Some("index"), IndexName, userId, "_routing", RoutingKey(location), source))
  }

  /** `generate_documents(users)`. */
  function Documents(users: seq<Value>): Generated {
    GenerateAll(users, UserAction)
  }

  /** The actions generated are one per user, in input order, up to the
      first user that raises; each carries that user's `$oid` and location
      routing. When every user is well formed, the generator runs to its end
      with one action per user. */
  lemma DocumentsFaithful(users: seq<Value>)
    ensures var g := Documents(users);
      forall i :: 0 <= i < |g.actions| ==>
        && users[i].Dict? && "location" in users[i].fields
        && g.actions[i].id == OidOf(users[i]).value
        && g.actions[i].routing == RoutingKey(users[i].fields["location"])
        && g.actions[i].index == "users"
    ensures (forall i :: 0 <= i < |users| ==> UserReady(users[i])) ==>
      Documents(users).failure.None? && |Documents(users).actions| == |users|
  {
    if forall i :: 0 <= i < |users| ==> UserReady(users[i]) {
      GenerateAllComplete(users, UserAction);
    }
  }

  /** A user whose `_id` is absent, or has no `$oid`, or a falsy one, stops
      the generator with ValueError, after one action per earlier user. */
  lemma MissingOidStops(users: seq<Value>, i: nat)
    requires i < |users|
    requires forall j :: 0 <= j < i ==> UserAction(users[j]).Ok?
    requires users[i].Dict?
    requires "_id" !in users[i].fields
      || (users[i].fields["_id"].Dict?
          && ("$oid" !in users[i].fields["_id"].fields || !Truthy(users[i].fields["_id"].fields["$oid"])))
    ensures Documents(users).failure == Some(ValueError)
    ensures |Documents(users).actions| == i
  {
    assert !Truthy(OidOf(users[i]).value);
    GenerateAllStops(users, UserAction, i, ValueError);
  }
}
