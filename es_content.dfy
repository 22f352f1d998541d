/** The `content` loader: routing by genre through a lookup table, the
    release date normalised from MongoDB extended JSON to ISO 8601, and the
    bulk action built for each content item. The script creates an index
    named `content_v2` with its mappings, but every action names the index
    `content`. */
module EsContent {

  import opened Values
  import opened Bulk
  import opened ReleaseDate

  /** `index_name`, the index the script creates. */
  const CreatedIndex: string := "content_v2"

  /** The `_index` every action carries. */
  const IndexName: string := "content"

  /** The top-level fields copied into `_source`, in the order the literal
      lists them; `metadata` is rebuilt after them. */
  const SourceFields: seq<string> := ["content_id", "title", "description", "type", "genre"]

  /** `routing_map` of `get_routing_key`: Romance and Thriller share a shard. */
  const RoutingMap: map<string, string> := map[
    "Drama" := "0",
    "Comedy" := "1",
    "Sci-Fi" := "2",
    "Romance" := "3",
    "Thriller" := "3"
  ]

  /** `get_routing_key`: the genre's shard in `routing_map`, "0" for any
      other hashable value, TypeError for a list or dict. */
  function RoutingKey(genre: Value): (r: Result<string>)
    ensures r.Ok? <==> Hashable(genre)
    ensures r.Ok? ==> r.value in {"0", "1", "2", "3"}
    ensures genre == Str("Drama") ==> r == Ok("0")
    ensures genre == Str("Comedy") ==> r == Ok("1")
    ensures genre == Str("Sci-Fi") ==> r == Ok("2")
    ensures genre == Str("Romance") || genre == Str("Thriller") ==> r == Ok("3")
    ensures r.Ok? && !(genre.Str? && genre.s in RoutingMap) ==> r.value == "0"
  {
    RouteBy(RoutingMap, genre)
  }

  /** Four shards for five genres: only Romance and Thriller collide. */
  lemma RoutingCollisions(g1: string, g2: string)
    requires g1 in RoutingMap && g2 in RoutingMap && g1 != g2
    ensures RoutingKey(Str(g1)).value == RoutingKey(Str(g2)).value
        <==> (g1 == "Romance" && g2 == "Thriller") || (g1 == "Thriller" && g2 == "Romance")
  {
  }

  /** The rebuilt `metadata`: duration and actors copied, the release date
      written back by `isoformat()`. */
  function Metadata(duration: Value, actors: Value, released: DateTime): map<string, Value>
    requires ValidDateTime(released)
  {
    map["duration" := duration, "actors" := actors, "release_date" := Str(IsoFormat(released))]
  }

  /** Whether `item["_id"]["$oid"]` can be read. */
  predicate HasOid(item: Value) {
    item.Dict? && "_id" in item.fields && item.fields["_id"].Dict? && "$oid" in item.fields["_id"].fields
  }

  function Oid(item: Value): Value
    requires HasOid(item)
  {
    item.fields["_id"].fields["$oid"]
  }

  /** `item["_id"]["$oid"]`. */
  function OidLookup(item: Value): (r: Result<Value>)
    ensures r.Ok? <==> HasOid(item)
    ensures r.Ok? ==> r.value == Oid(item)
  {
    var holder :- Subscript(item, "_id");
    Subscript(holder, "$oid")
  }

  /** Whether `item["metadata"]["release_date"]["$date"]` can be read. */
  predicate HasRawDate(item: Value) {
    && item.Dict? && "metadata" in item.fields && item.fields["metadata"].Dict?
    && "release_date" in item.fields["metadata"].fields
    && item.fields["metadata"].fields["release_date"].Dict?
    && "$date" in item.fields["metadata"].fields["release_date"].fields
  }

  function RawDate(item: Value): Value
    requires HasRawDate(item)
  {
    item.fields["metadata"].fields["release_date"].fields["$date"]
  }

  /** `item["metadata"]["release_date"]["$date"]`. */
  function RawDateLookup(item: Value): (r: Result<Value>)
    ensures r.Ok? <==> HasRawDate(item)
    ensures r.Ok? ==> r.value == RawDate(item)
  {
    var metadata :- Subscript(item, "metadata");
    var holder :- Subscript(metadata, "release_date");
    Subscript(holder, "$date")
  }

  /** The `_source` literal: the copied top-level fields and the rebuilt
      `metadata`. */
  function ContentSource(item: Value, released: DateTime): (r: Result<map<string, Value>>)
    requires HasRawDate(item) && ValidDateTime(released)
    ensures r.Ok? <==> ((forall k :: k in SourceFields ==> k in item.fields)
      && "duration" in item.fields["metadata"].fields && "actors" in item.fields["metadata"].fields)
    ensures r.Ok? ==> forall k :: k in r.value <==> k in SourceFields || k == "metadata"
    ensures r.Ok? ==> forall k :: k in SourceFields ==> r.value[k] == item.fields[k]
    ensures r.Ok? ==> r.value["metadata"] == Dict(Metadata(item.fields["metadata"].fields["duration"],
                                                         item.fields["metadata"].fields["actors"], released))
  {
    var copied :- CopyFields(item.fields, SourceFields);
    var duration :- Subscript(item.fields["metadata"], "duration");
    var actors :- Subscript(item.fields["metadata"], "actors");
    Ok(copied["metadata" := Dict(Metadata(duration, actors, released))])
  }

  /** An item `generate_documents` turns into an action: `$oid` and `$date`
      present, the date accepted by one of the two formats, every copied
      field, `duration` and `actors` present, and a genre that can be looked
      up. */
  predicate ContentReady(item: Value) {
    && HasOid(item) && HasRawDate(item) && ParseRelease(RawDate(item)).Ok?
    && (forall k :: k in SourceFields ==> k in item.fields)
    && "duration" in item.fields["metadata"].fields && "actors" in item.fields["metadata"].fields
    && "genre" in item.fields && Hashable(item.fields["genre"])
  }

  /** One iteration of `generate_documents`, in the order Python evaluates
      it: the id, the raw date, the parse with its fallback, then the dict
      literal from `content_id` to `actors`, then the routing. */
  function ContentAction(item: Value): (r: Result<Action>)
    ensures r.Ok? ==>
      && HasOid(item) && HasRawDate(item) && ParseRelease(RawDate(item)).Ok?
      && ContentSource(item, ParseRelease(RawDate(item)).value).Ok?
      && "genre" in item.fields && RoutingKey(item.fields["genre"]).Ok?
      && r.value == Action(None, IndexName, Oid(item), "routing", RoutingKey(item.fields["genre"]).value,
                           ContentSource(item, ParseRelease(RawDate(item)).value).value)
    ensures HasOid(item) && HasRawDate(item) && ParseRelease(RawDate(item)).Err?
      ==> r == Err(ParseRelease(RawDate(item)).error)
    ensures ContentReady(item) ==> r.Ok?
  {
    var id :- OidLookup(item);
    var raw :- RawDateLookup(item);
    var released :- ParseRelease(raw);
    var source :- ContentSource(item, released);
    var genre :- Subscript(item, "genre");
    var routing :- RoutingKey(genre);
    Ok(Action(None, IndexName, id, "routing", routing, source))
  }

  /** `generate_documents(data)`. */
  function Documents(items: seq<Value>): Generated {
    GenerateAll(items, ContentAction)
  }

  /** Every action generated carries the item's `$oid`, goes to `content`
      (not the index the script created) and is routed by the item's genre.
      When every item is well formed, the generator runs to its end with one
      action per item. */
  lemma DocumentsFaithful(items: seq<Value>)
    ensures var g := Documents(items);
      forall i :: 0 <= i < |g.actions| ==>
        && items[i].Dict? && "genre" in items[i].fields
        && g.actions[i].id == Oid(items[i])
        && g.actions[i].routing == RoutingKey(items[i].fields["genre"]).value
        && g.actions[i].index == IndexName && g.actions[i].index != CreatedIndex
    ensures (forall i :: 0 <= i < |items| ==> ContentReady(items[i])) ==>
      Documents(items).failure.None? && |Documents(items).actions| == |items|
  {
    if forall i :: 0 <= i < |items| ==> ContentReady(items[i]) {
      GenerateAllComplete(items, ContentAction);
    }
  }

  /** The release date generated denotes the instant the item held: reading it
      back with a `Z` appended gives the parse of the original text. */
  lemma ReleaseDatePreserved(items: seq<Value>, i: nat)
    requires i < |Documents(items).actions|
    ensures HasRawDate(items[i]) && ParseRelease(RawDate(items[i])).Ok?
    ensures var metadata := Documents(items).actions[i].source["metadata"];
      && metadata.Dict? && "release_date" in metadata.fields && metadata.fields["release_date"].Str?
      && ParseRelease(Str(metadata.fields["release_date"].s + "Z")) == ParseRelease(RawDate(items[i]))
  {
    assert ContentAction(items[i]).Ok?;
    EmittedDateRoundTrips(RawDate(items[i]));
  }

  /** A date that neither format accepts stops the generator at that item,
      after one action for each item before it. */
  lemma BadDateStops(items: seq<Value>, i: nat)
    requires i < |items|
    requires forall j :: 0 <= j < i ==> ContentAction(items[j]).Ok?
    requires HasOid(items[i]) && HasRawDate(items[i]) && RawDate(items[i]).Str?
    requires ParseFormat(RawDate(items[i]).s, true).Err? && ParseFormat(RawDate(items[i]).s, false).Err?
    ensures Documents(items).failure == Some(ValueError)
    ensures |Documents(items).actions| == i
  {
    GenerateAllStops(items, ContentAction, i, ValueError);
  }
}
