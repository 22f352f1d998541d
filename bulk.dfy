/** What the four Elasticsearch loaders share: the bulk action a generator
    yields for each source record, copying named fields into `_source`, the
    routing-table lookup, and the actions a generator yields before an item
    raises. */
module Bulk {

  import opened Values

  /** A bulk action: `_op_type` when the loader sets it, `_index`, `_id`,
      the routing under the key the loader uses (`_routing` or `routing`),
      and `_source`. */
  datatype Action = Action(
    opType: Option<string>,
    index: string,
    id: Value,
    routingField: string,
    routing: string,
    source: map<string, Value>)

  /** The actions a generator yielded before it stopped, and the exception it
      stopped with, if any. */
  datatype Generated = Generated(actions: seq<Action>, failure: Option<Error>)

  /** Runs a generator that builds one action per item: items are taken in
      order until one raises, which ends the generation. */
  function GenerateAll(items: seq<Value>, build: Value -> Result<Action>): (g: Generated)
    ensures |g.actions| <= |items|
    ensures forall i :: 0 <= i < |g.actions| ==> build(items[i]) == Ok(g.actions[i])
    ensures g.failure.None? <==> |g.actions| == |items|
    ensures g.failure.Some? ==> build(items[|g.actions|]) == Err(g.failure.value)
  {
    if items == [] then Generated([], None)
    else
      match build(items[0])
      case Err(e) => Generated([], Some(e))
      case Ok(action) =>
        var rest := GenerateAll(items[1..], build);
        Generated([action] + rest.actions, rest.failure)
  }

  /** The first of `keys` missing from `record`, if any. */
  function FirstMissing(record: map<string, Value>, keys: seq<string>): (k: Option<nat>)
    ensures k.Some? ==> (k.value < |keys| && keys[k.value] !in record
      && forall j :: 0 <= j < k.value ==> keys[j] in record)
    ensures k.None? ==> forall j :: 0 <= j < |keys| ==> keys[j] in record
  {
    if keys == [] then None
    else if keys[0] !in record then Some(0)
    else match FirstMissing(record, keys[1..])
      case None => None
      case Some(j) => Some(j + 1)
  }

  /** A dict literal `{k: record[k] for k in keys}` written out key by key:
      the first missing key raises KeyError, otherwise every listed value is
      copied unchanged and nothing else is. */
  function CopyFields(record: map<string, Value>, keys: seq<string>): (r: Result<map<string, Value>>)
    ensures r.Ok? <==> forall j :: 0 <= j < |keys| ==> keys[j] in record
    ensures r.Ok? ==> forall k :: k in r.value <==> k in keys
    ensures r.Ok? ==> forall k :: k in r.value ==> k in record && r.value[k] == record[k]
    ensures r.Err? ==> exists j :: (0 <= j < |keys| && r.error == KeyError(keys[j]) && keys[j] !in record
      && forall i :: 0 <= i < j ==> keys[i] in record)
  {
    match FirstMissing(record, keys)
    case Some(j) => Err(KeyError(keys[j]))
    case None => Ok(map k | k in record && k in keys :: record[k])
  }

  /** `routing_map.get(key, "0")` for the loaders that route through a
      table: a list or dict cannot be looked up and raises TypeError; any
      other value not in the table routes to "0". */
  function RouteBy(routing: map<string, string>, key: Value): (r: Result<string>)
    ensures r.Ok? <==> Hashable(key)
    ensures r.Ok? && key.Str? && key.s in routing ==> r.value == routing[key.s]
    ensures r.Ok? && !(key.Str? && key.s in routing) ==> r.value == "0"
  {
    if !Hashable(key) then Err(TypeError)
    else if key.Str? && key.s in routing then Ok(routing[key.s])
    else Ok("0")
  }

  /** The generator runs to its end exactly when no item raises; then it
      yields one action per item, in input order. */
  lemma GenerateAllComplete(items: seq<Value>, build: Value -> Result<Action>)
    requires forall i :: 0 <= i < |items| ==> build(items[i]).Ok?
    ensures GenerateAll(items, build).failure.None?
    ensures GenerateAll(items, build).actions == seq(|items|, i requires 0 <= i < |items| => build(items[i]).value)
  {
  }

  /** The first item that raises ends the generator with its exception,
      after one action for each item before it. */
  lemma GenerateAllStops(items: seq<Value>, build: Value -> Result<Action>, i: nat, e: Error)
    requires i < |items|
    requires forall j :: 0 <= j < i ==> build(items[j]).Ok?
    requires build(items[i]) == Err(e)
    ensures GenerateAll(items, build).failure == Some(e)
    ensures |GenerateAll(items, build).actions| == i
  {
  }
}
