# Geo-distributed NoSQL recommendation benchmark: a Dafny model of its data transformations

The repository compares MongoDB, DynamoDB and Elasticsearch as stores for a
location-aware recommendation system. Synthetic users, content, interactions,
recommendations and regional trends are generated and loaded into each store,
partitioned or replicated across four geographic regions (North America, South
America, Europe, Asia). Benchmark queries are then run against them, and a Flask
dashboard serves the recorded results.

This project models the deterministic core under that glue:

- **DynamoDB loader** (`LoadTables`). Per-table preprocessing of the `_id`
  field, chunking into batches of 25, bucketing records by region with writes
  to each region's endpoint, and replication of the whole list to every region.
  Batch writes are recorded in a `WriteLog` object.
- **DynamoDB queries** (`DynamoQueries`, built on `StableSort`). The regional
  top-10 query (filter, stable sort on views then likes, slice) and the global
  top-5 query (scan four regions, sum views per `top_content`, sort, slice).
  Each scan's outcome is a parameter.
- **DynamoDB table setup** (`CreateTables`). The HASH/RANGE key-schema
  builder, the four-table layout, point-in-time recovery, and the region loop.
  The service is a `Service` object that logs every request, accepted or not.
- **Elasticsearch loaders** (`Bulk`, `EsUsers`, `EsContent`, `ReleaseDate`,
  `EsRegionalTrends`, `EsInteractionHistory`). Each loader's routing function
  and its bulk-action generator. A generator stops at the first item that
  raises.
  - The content loader parses `$date` strings with two `strptime` formats and
    writes them back with `isoformat()`.
  - It creates an index named `content_v2`, but every action it generates names the
    index `content`. The model keeps that.
- **Synthetic data generator** (`FakeData`). The five `generate_*` loops, with
  `random` and Faker as nondeterministic choices bounded the way those libraries
  document, and the recursive `convert_dates`.
- **Dashboard** (`Dashboard`, `PerformanceData`). The `get_metrics` route: the
  `.get` lookup chain with its error reply, the bar traces, and the
  recommendation text. Also the static `performance_data` table, transcribed in
  full.

Shared pieces:

- `Values`: JSON-like documents, Python exceptions as a `Result`, and Python's
  subscript, `get`, `in` and truthiness.
- `Decimal`: `str(int)`, `"%0Nd"` and `int()` on digit strings.

## Model

| member | source | states |
|---|---|---|
| Values.Subscript | DynamoDB/load_tables.py:53-54 | `v[key]` succeeds exactly on a dict holding the key, giving its value; a dict without it raises KeyError |
| Values.DictGet | ElasticSearch/Final_Sharding_Users.py:88 | `v.get(key, default)` succeeds exactly on a dict, giving the value or the default |
| Values.Contains | DynamoDB/load_tables.py:53 | `key in v` is key membership on a dict and element membership on a list; it raises on other scalars |
| LoadTables.Preprocessed | DynamoDB/load_tables.py:43-67 | never longer than the input |
| LoadTables.RecordsToChunks | DynamoDB/load_tables.py:90-93 | the chunk writes for one region send that region the chunks' concatenation, and any other region nothing |
| Decimal.NatToString | UI/dashboard/app.py:1527-1528 | `str(n)` of a natural number is a non-empty run of digits |
| LoadTables.MoveOid | DynamoDB/load_tables.py:53-55 | a record without `_id` is unchanged; when `_id` is a dict holding `$oid`, the result has the id field set to that value, no `_id`, and every other key unchanged; when `_id` has no `$oid` the record is unchanged; it raises exactly when `'$oid' in record['_id']` raises (on a number, null or bool) or when `_id` is a string or list containing `$oid`, which cannot be subscripted by a string |
| LoadTables.PreprocessRecord | DynamoDB/load_tables.py:47-63 | Users and Content drop `_id`; RegionalTrends and InteractionHistory move `$oid` to `regional_trends_id` / `interaction_history_id`; any other table name leaves the record unchanged |
| LoadTables.PreprocessData | DynamoDB/load_tables.py:43-67 | the loop returns exactly `Preprocessed`: the processed records in input order, with those that raised dropped |
| LoadTables.PreprocessedKeepsAll | DynamoDB/load_tables.py:43-67 | when no record raises, every record is kept, in order, each replaced by its processed form |
| LoadTables.PreprocessedUsersContent | DynamoDB/load_tables.py:48-58 | for Users and Content every record is kept with `_id` removed; for tables not named in the chain the list is returned unchanged |
| LoadTables.PreprocessedDropsOnlyFailures | DynamoDB/load_tables.py:64-67 | the output is the processed forms of the records that do not raise, each once, in input order; it is shorter than the input by exactly the number of records that raised |
| LoadTables.Survivors | DynamoDB/load_tables.py:64-66 | the positions of the records that do not raise: all of them, in increasing order |
| LoadTables.Failures | DynamoDB/load_tables.py:65-66 | lists positions of input records whose processing raises |
| LoadTables.ChunksFlatten | DynamoDB/load_tables.py:84-87 | concatenating the chunks in order gives back exactly the input |
| LoadTables.ChunksSizes | DynamoDB/load_tables.py:84-87 | every chunk has 1 to `size` elements, and every chunk but the last has exactly `size` |
| LoadTables.ChunksCount | DynamoDB/load_tables.py:84-87 | there are ceil(n / 25) chunks of the default size |
| LoadTables.WriteLog.constructor | DynamoDB/load_tables.py:70-81 | a fresh log has no writes |
| LoadTables.BatchWriteToTable | DynamoDB/load_tables.py:70-81 | appends one batch write of the given records to the log; errors are caught, so the call always returns |
| LoadTables.ChunkWrites | DynamoDB/load_tables.py:90-93 | one batch write per chunk |
| LoadTables.WriteDataInChunks | DynamoDB/load_tables.py:90-93 | the log grows by exactly `ChunkWrites`: one write per chunk, in order |
| LoadTables.RecordsToAppend | DynamoDB/load_tables.py:90-93 | the records handed to a region's writer over two runs of writes are those of the first run followed by those of the second |
| LoadTables.ChunkWritesRecords | DynamoDB/load_tables.py:90-93 | writing in chunks hands every record to that region's writer exactly once, in order, and nothing to any other region |
| LoadTables.Bucket | DynamoDB/load_tables.py:104-107 | the bucket is never longer than the data |
| LoadTables.GroupByRegion | DynamoDB/load_tables.py:102-107 | it fails with TypeError exactly when some column value is unhashable; otherwise it returns one bucket per region name, each equal to `Bucket` |
| LoadTables.DistributionWritesStep | DynamoDB/load_tables.py:110-114 | one turn of the write loop adds the region's chunk writes after what came before, only for a non-empty bucket |
| LoadTables.RegionNamesHaveCodes | DynamoDB/load_tables.py:10-15 | every region name has a region code |
| LoadTables.WriteRegions | DynamoDB/load_tables.py:109-114 | writes each non-empty bucket to its region's code, in the order of `regions` |
| LoadTables.WriteRegionsIn | DynamoDB/load_tables.py:110-114 | the same loop over any list of named regions appends exactly `DistributionWrites` |
| LoadTables.DistributeDataAcrossRegions | DynamoDB/load_tables.py:96-114 | succeeds exactly when the grouping column is hashable in every preprocessed record, and then writes the buckets in region order; on failure nothing is written |
| LoadTables.BucketMembers | DynamoDB/load_tables.py:104-107 | a record is in a region's bucket exactly when it is in the data and its column value is that region |
| LoadTables.BucketsDisjoint | DynamoDB/load_tables.py:104-107 | no record is in the buckets of two different regions |
| LoadTables.BucketStep | DynamoDB/load_tables.py:104-107 | appending a record adds it to the end of its region's bucket only |
| LoadTables.UnroutedStep | DynamoDB/load_tables.py:105-106 | appending a record with no known region adds it to the unrouted records only |
| LoadTables.BucketsOfStep | DynamoDB/load_tables.py:104-107 | appending a record adds it once to the pooled buckets when its region is named, and not at all otherwise |
| LoadTables.RegionNamesDistinct | DynamoDB/load_tables.py:10-15 | the four region names are pairwise distinct |
| LoadTables.BucketsOfEmpty | DynamoDB/load_tables.py:102 | every bucket starts empty |
| LoadTables.BucketsPartition | DynamoDB/load_tables.py:102-107 | nothing is lost or duplicated: the buckets plus the unrouted records form exactly the input multiset |
| LoadTables.RegionsPartition | DynamoDB/load_tables.py:102-107 | the partition holds for the four regions of `regions` |
| LoadTables.RegionCodesInjective | DynamoDB/load_tables.py:10-15 | distinct regions have distinct codes |
| LoadTables.DistributionWritesTo | DynamoDB/load_tables.py:110-114 | the writer of a named region's code receives exactly that region's bucket |
| LoadTables.DistributionReachesEachRegion | DynamoDB/load_tables.py:96-114 | after distribution, each region's writer has received exactly its bucket, in input order |
| LoadTables.RegionCodeOrder | DynamoDB/load_tables.py:123 | `regions.values()` yields the code of each region name, in the order of `regions`, with no code twice |
| LoadTables.ReplicateDataAcrossRegions | DynamoDB/load_tables.py:117-125 | writes the whole preprocessed list to each of the four codes, in map order |
| LoadTables.ReplicationReachesEachRegion | DynamoDB/load_tables.py:122-125 | for distinct codes, each code's writer receives the whole list, in order |
| LoadTables.ReplicationReachesRegion | DynamoDB/load_tables.py:117-125 | after replication, the writer of every region's code has received the whole preprocessed list, in order |
| LoadTables.ReplicationMissesOthers | DynamoDB/load_tables.py:122-125 | a code that is not replicated to receives nothing |
| DynamoQueries.ScanTable | DynamoDB/performance_metrics_dynamodb.py:52-62 | a scan that raises gives `[]`; a response gives its `Items`, or `[]` without them |
| DynamoQueries.Matching | DynamoDB/performance_metrics_dynamodb.py:154 | keeps every item of the requested region, as many times as the scan holds it, and nothing else |
| DynamoQueries.RegionalQuery | DynamoDB/performance_metrics_dynamodb.py:146-163 | KeyError exactly when a matching item lacks metrics; otherwise at most 10 items, all of the requested region |
| DynamoQueries.RegionalQueryOrdered | DynamoDB/performance_metrics_dynamodb.py:155-161 | the result is ordered by views descending, ties by likes descending |
| DynamoQueries.RegionalQueryTop | DynamoDB/performance_metrics_dynamodb.py:155-163 | the result has min(10, k) of the k matching items, and no matching item left out ranks above one kept |
| DynamoQueries.RegionalQueryStable | DynamoDB/performance_metrics_dynamodb.py:155-163 | of the matching items with equal views and likes, the result keeps the earliest ones in scan order, in that order, and all of them when at most 10 items match |
| DynamoQueries.GlobalQuery | DynamoDB/performance_metrics_dynamodb.py:165-188 | the loop computes exactly `GlobalResult` over items with string titles and integer metrics: the top 5 of the aggregate, or KeyError when an item lacks metrics |
| DynamoQueries.TitleTotalStep | DynamoDB/performance_metrics_dynamodb.py:180-184 | one item adds its views to its title's total only when the title is truthy |
| DynamoQueries.TitleTotalUncounted | DynamoDB/performance_metrics_dynamodb.py:179-184 | a title never inserted has total 0 |
| DynamoQueries.FirstTitlesMembers | DynamoDB/performance_metrics_dynamodb.py:179-184 | the keys of `aggregated` are pairwise distinct, and are exactly the truthy titles of the items |
| DynamoQueries.SubDistinct | DynamoDB/performance_metrics_dynamodb.py:187-188 | a slice of distinct-titled pairs has distinct titles |
| DynamoQueries.AggregateFacts | DynamoDB/performance_metrics_dynamodb.py:179-187 | the aggregate pairs each counted title, once, with its total of views |
| DynamoQueries.GlobalQueryShape | DynamoDB/performance_metrics_dynamodb.py:179-188 | exactly min(5, number of counted titles) pairs, titles pairwise distinct, each total the sum of views over the four regions' items with that title |
| DynamoQueries.GlobalQueryOrdered | DynamoDB/performance_metrics_dynamodb.py:187-188 | totals never increase along the result |
| DynamoQueries.GlobalQueryTop | DynamoDB/performance_metrics_dynamodb.py:187-188 | every counted title left out has a total no larger than any returned total |
| DynamoQueries.GlobalQueryStable | DynamoDB/performance_metrics_dynamodb.py:179-188 | titles with equal totals keep their first-insertion order: for each total, the result's pairs with it are a prefix of the aggregate's |
| DynamoQueries.FailedScanContributesNothing | DynamoDB/performance_metrics_dynamodb.py:173-176 | items of a region whose scan raised never reach the aggregate |
| DynamoQueries.AllItemsFrom | DynamoDB/performance_metrics_dynamodb.py:173-176 | every scanned item comes from a region whose scan did not raise |
| DynamoQueries.RegionMapsInverse | DynamoDB/performance_metrics_dynamodb.py:19-24 | the code-to-name map is the exact inverse of the loader's name-to-code map, with codes in the same order |
| StableSort.Insert | DynamoDB/performance_metrics_dynamodb.py:155-161 | insertion keeps the multiset, plus the new element |
| StableSort.SortDescending | DynamoDB/performance_metrics_dynamodb.py:155-161 | the sort is a permutation of its input |
| StableSort.Take | DynamoDB/performance_metrics_dynamodb.py:163 | `[:n]` gives a prefix of length min(n, len) |
| StableSort.InsertDescending | DynamoDB/performance_metrics_dynamodb.py:155-161 | inserting into a descending sequence keeps it descending |
| StableSort.SortIsDescending | DynamoDB/performance_metrics_dynamodb.py:155-161 | the sort's result is descending by rank |
| StableSort.WithRankCons | DynamoDB/performance_metrics_dynamodb.py:155-161 | the elements of one rank in `[x] + s` are `x` if it has that rank, then those of `s` |
| StableSort.SwapFront | DynamoDB/performance_metrics_dynamodb.py:155-161 | in a step of the stability proof, an empty front part commutes |
| StableSort.InsertStable | DynamoDB/performance_metrics_dynamodb.py:155-161 | inserting puts the new element before the elements of its rank and keeps their order |
| StableSort.SortIsStable | DynamoDB/performance_metrics_dynamodb.py:155-161 | elements of equal rank keep their input order |
| StableSort.TopOfSorted | DynamoDB/performance_metrics_dynamodb.py:155-163 | the first n of the sort have min(n, len) elements from the input, in descending order, and every element left out ranks at or below every element kept |
| StableSort.PrefixOutranksSuffix | DynamoDB/performance_metrics_dynamodb.py:163 | in a descending sequence, the prefix outranks the rest |
| StableSort.LeftOutOfTop | DynamoDB/performance_metrics_dynamodb.py:187-188 | an element the slice leaves out ranks at or below every element kept |
| StableSort.WithRankAppend | DynamoDB/performance_metrics_dynamodb.py:155-163 | the elements of one rank in a concatenation are those of each part, in order |
| StableSort.TakeWithRank | DynamoDB/performance_metrics_dynamodb.py:163 | the `[:n]` slice keeps, of each rank, a prefix of the elements of that rank |
| CreateTables.BuildKeySchema | DynamoDB/create_load_tables.py:20-24 | HASH partition key first; a second RANGE entry exactly when `sort_key` is truthy; one attribute definition of type "S" per key entry, same names in the same order |
| CreateTables.CreateRequests | DynamoDB/create_load_tables.py:42-74 | one create request per table, in order |
| CreateTables.PitrRequests | DynamoDB/create_load_tables.py:93-98 | one recovery request per table name, in order |
| CreateTables.Requests | DynamoDB/create_load_tables.py:26-39 | the requests of a log of attempts, one per attempt, whether accepted or not |
| CreateTables.RequestsAppend | DynamoDB/create_load_tables.py:26-39 | the requests of two runs of attempts concatenate |
| CreateTables.Service.constructor | DynamoDB/create_load_tables.py:8-15 | a fresh service has no attempts |
| CreateTables.Service.Send | DynamoDB/create_load_tables.py:26-39 | records the request and whether it was accepted; a rejection is caught and never propagates |
| CreateTables.CreateTableOnDemand | DynamoDB/create_load_tables.py:18-39 | sends exactly one create request with the built key schema and PAY_PER_REQUEST billing |
| CreateTables.CreateTablesOnDemand | DynamoDB/create_load_tables.py:42-74 | sends create requests for Users(location, user_id), RegionalTrends(region, regional_trends_id), Content(genre, content_id), InteractionHistory(user_id, interaction_history_id), in order |
| CreateTables.CreateTablesIn | DynamoDB/create_load_tables.py:42-74 | a failed creation does not stop the later ones: one request per table, whatever the service answers |
| CreateTables.EnablePitr | DynamoDB/create_load_tables.py:77-90 | sends exactly one recovery request for the table |
| CreateTables.SetupFaultTolerance | DynamoDB/create_load_tables.py:93-98 | sends recovery requests for the four tables, in order |
| CreateTables.EnablePitrIn | DynamoDB/create_load_tables.py:97-98 | one recovery request per table name, whatever the service answers |
| CreateTables.SetupRequestsStep | DynamoDB/create_load_tables.py:103-107 | one turn of `main`: the region's creations, then its recovery requests |
| CreateTables.SetupAllRegions | DynamoDB/create_load_tables.py:101-108 | for each of the four region codes in list order: create, then enable recovery |
| CreateTables.SetupRegionsIn | DynamoDB/create_load_tables.py:103-108 | the same loop over any list of regions |
| CreateTables.DataModelKeys | DynamoDB/create_load_tables.py:44-74 | every data-model table has a HASH partition key and a RANGE sort key, both string attributes |
| CreateTables.PitrMatchesCreated | DynamoDB/create_load_tables.py:95 | recovery is enabled on exactly the created tables, in the same order |
| CreateTables.SetupRequestsLayout | DynamoDB/create_load_tables.py:103-108 | there are 8 requests per region; region k's four creations come first, then its four recovery requests |
| Bulk.GenerateAll | ElasticSearch/Final_Sharding_Users.py:85-106 | one action per item, in order, up to the first item that raises, whose exception ends the generator |
| Bulk.FirstMissing | ElasticSearch/Final_Sharding_Users.py:98-105 | finds the first key of a dict literal that the record lacks, or none |
| Bulk.CopyFields | ElasticSearch/Final_Sharding_Users.py:98-105 | a `_source` literal has exactly the listed keys with the record's values, or KeyError for the first missing one |
| Bulk.RouteBy | ElasticSearch/Final_Sharding_content.py:67 | `routing_map.get(key, "0")`: the table's shard for a known key, "0" for any other hashable value, TypeError for a list or dict |
| Bulk.GenerateAllComplete | ElasticSearch/Final_Sharding_Users.py:85-106 | when no item raises, there is one action per item, in input order |
| Bulk.GenerateAllStops | ElasticSearch/Final_Sharding_content.py:70-99 | the first item that raises ends the generator with its exception, after one action per earlier item |
| EsUsers.RoutingKey | ElasticSearch/Final_Sharding_Users.py:72-82 | Asia→"0", North America→"1", South America→"2", Europe→"3", anything else "0"; always one of "0".."3" |
| EsUsers.OidOf | ElasticSearch/Final_Sharding_Users.py:88 | the `$oid` when present, None when `_id` or `$oid` is absent, AttributeError when `.get` hits a non-dict |
| EsUsers.UserAction | ElasticSearch/Final_Sharding_Users.py:86-106 | a falsy `$oid` raises ValueError; a dict user with a truthy `$oid` and all six fields always yields an action; an action has `_op_type` index, `_index` users, `_id` the `$oid`, `_routing` the location's key, `_source` the six copied fields |
| EsUsers.DocumentsFaithful | ElasticSearch/Final_Sharding_Users.py:85-106 | every action generated carries its user's `$oid`, index "users" and the location's routing key, in input order; when every user is well formed, there is one action per user and no exception |
| EsUsers.MissingOidStops | ElasticSearch/Final_Sharding_Users.py:88-90 | a user with no `_id`, no `$oid` or a falsy `$oid` stops the generator with ValueError at that user |
| EsContent.RoutingKey | ElasticSearch/Final_Sharding_content.py:59-67 | Drama→"0", Comedy→"1", Sci-Fi→"2", Romance and Thriller→"3", any other hashable value "0"; always one of "0".."3"; TypeError for an unhashable genre |
| EsContent.RoutingCollisions | ElasticSearch/Final_Sharding_content.py:60-66 | of the five genres, only Romance and Thriller share a shard |
| EsContent.OidLookup | ElasticSearch/Final_Sharding_content.py:72 | reads `item["_id"]["$oid"]`, failing exactly when it is absent |
| EsContent.RawDateLookup | ElasticSearch/Final_Sharding_content.py:75 | reads `item["metadata"]["release_date"]["$date"]`, failing exactly when it is absent |
| EsContent.ContentSource | ElasticSearch/Final_Sharding_content.py:86-97 | `_source` has exactly the five copied fields and `metadata` with duration, actors and the `isoformat` of the parsed date |
| EsContent.ContentAction | ElasticSearch/Final_Sharding_content.py:71-99 | an item with its `$oid`, a date one of the formats accepts, all copied fields, duration, actors and a hashable genre always yields an action; an action has `_index` "content", `_id` the `$oid`, the built source and the genre's routing key; an unparsable date yields the parse error |
| EsContent.DocumentsFaithful | ElasticSearch/Final_Sharding_content.py:70-99 | every action generated carries its item's `$oid` and the genre's routing key, and goes to "content", not "content_v2"; when every item is well formed, there is one action per item and no exception |
| EsContent.ReleaseDatePreserved | ElasticSearch/Final_Sharding_content.py:78-95 | the emitted release date, read back with `Z`, is the instant the item held |
| EsContent.BadDateStops | ElasticSearch/Final_Sharding_content.py:78-81 | a date neither format accepts stops the generator with ValueError at that item |
| ReleaseDate.DigitPrefix | ElasticSearch/Final_Sharding_content.py:78 | the length of the run of leading digits |
| ReleaseDate.Number | ElasticSearch/Final_Sharding_content.py:78 | a numeric field within its bounds, or ValueError |
| ReleaseDate.Literal | ElasticSearch/Final_Sharding_content.py:78 | matches one literal character of the format, or ValueError |
| ReleaseDate.Day | ElasticSearch/Final_Sharding_content.py:78 | `%d` reads 1..31, or ValueError |
| ReleaseDate.Fraction | ElasticSearch/Final_Sharding_content.py:78 | `.%f` fails only with ValueError |
| ReleaseDate.MakeDateTime | ElasticSearch/Final_Sharding_content.py:78-81 | succeeds exactly for a representable date-time, else ValueError |
| ReleaseDate.DatePart | ElasticSearch/Final_Sharding_content.py:78 | `%Y-%m-%d` gives a year of at most four digits, a month 1..12 and a day 1..31 |
| ReleaseDate.TimePart | ElasticSearch/Final_Sharding_content.py:78 | `%H:%M:%S` gives an hour ≤ 23, a minute ≤ 59 and a second ≤ 61 |
| ReleaseDate.ParseFormat | ElasticSearch/Final_Sharding_content.py:78-81 | `strptime` gives a valid date-time or ValueError; without `.%f` the microsecond is 0 |
| ReleaseDate.ParseRelease | ElasticSearch/Final_Sharding_content.py:76-81 | the fractional format first, the whole-seconds format only when it fails; a non-string raises TypeError |
| ReleaseDate.IsoFormat | ElasticSearch/Final_Sharding_content.py:95 | `isoformat()` has 19 characters, or 26 when the microsecond is non-zero |
| ReleaseDate.IsoTextSuffix | ElasticSearch/Final_Sharding_content.py:95 | ISO text with a suffix is the ISO text followed by the suffix |
| ReleaseDate.DigitPrefixOf | ElasticSearch/Final_Sharding_content.py:78 | a digit run followed by a non-digit reads as exactly that run |
| ReleaseDate.NumberOf | ElasticSearch/Final_Sharding_content.py:78 | a digit run of an accepted length and value reads back as its value |
| ReleaseDate.FixedField | ElasticSearch/Final_Sharding_content.py:78-95 | a zero-padded field that `isoformat` writes is read back by `strptime` as the same number |
| ReleaseDate.FractionOf | ElasticSearch/Final_Sharding_content.py:78-95 | six written fraction digits read back as the same microseconds |
| ReleaseDate.FractionRead | ElasticSearch/Final_Sharding_content.py:78 | six fractional digits need no padding |
| ReleaseDate.DatePartOf | ElasticSearch/Final_Sharding_content.py:78-95 | the date that `isoformat` writes parses back to the same year, month and day |
| ReleaseDate.TimePartOf | ElasticSearch/Final_Sharding_content.py:78-95 | the time that `isoformat` writes parses back to the same hour, minute and second |
| ReleaseDate.ParseFormatSteps | ElasticSearch/Final_Sharding_content.py:78-81 | `strptime` assembled from the date, time and fraction parts |
| ReleaseDate.ParseFormatNoFraction | ElasticSearch/Final_Sharding_content.py:78-79 | text without a fraction fails the first format |
| ReleaseDate.ParseIsoFormat | ElasticSearch/Final_Sharding_content.py:76-95 | round trip: parsing `isoformat(dt) + "Z"` gives `dt` back |
| ReleaseDate.EmittedDateRoundTrips | ElasticSearch/Final_Sharding_content.py:76-95 | the emitted date, with `Z` appended, parses to the instant parsed from the input |
| EsRegionalTrends.RoutingKey | ElasticSearch/Final_Sharding_Regional_trends.py:50-57 | North America→"0", Europe→"1", Asia→"2", South America→"3", default "0"; always one of "0".."3"; TypeError for an unhashable region |
| EsRegionalTrends.RoutingDistinct | ElasticSearch/Final_Sharding_Regional_trends.py:51-56 | the four regions go to four different shards |
| EsRegionalTrends.TrendAction | ElasticSearch/Final_Sharding_Regional_trends.py:61-71 | `_index` regional_trends, `_id` the `$oid`, `_source` exactly region, top_content and engagement_metrics, routing the region's key |
| EsRegionalTrends.DocumentsFaithful | ElasticSearch/Final_Sharding_Regional_trends.py:60-71 | well-formed trends all yield an action, one per trend, in order, and no exception; each action is routed by its region |
| EsInteractionHistory.RoutingKey | ElasticSearch/Final_Sharding_Interaction_history.py:41-44 | `str(h(user_id) % 4)`: always one of "0".."3", reading back as the hash mod 4; only strings can be encoded |
| EsInteractionHistory.InteractionAction | ElasticSearch/Final_Sharding_Interaction_history.py:48-61 | an item with its `$oid`, a string `user_id` and all four copied fields always yields an action; an action has `_index` interaction_history, `_id` the `$oid`, `_source` exactly the four copied fields, routing the user id's key |
| EsInteractionHistory.DocumentsComplete | ElasticSearch/Final_Sharding_Interaction_history.py:47-61 | when every interaction is well formed, the generator yields one action per interaction, in order, with no exception, each carrying its `$oid` and routed by its user id |
| EsInteractionHistory.SameUserSameShard | ElasticSearch/Final_Sharding_Interaction_history.py:50 | all interactions of one user go to the same shard |
| FakeData.RandInt | DATASET/fakedata.py:38 | `randint` includes both ends |
| FakeData.Uniform | DATASET/fakedata.py:35-36 | `uniform` stays between its bounds |
| FakeData.FakeDate | DATASET/fakedata.py:59 | a calendar date with month 1..12 and day 1..31 |
| FakeData.Choice | DATASET/fakedata.py:34 | `choice` picks a valid position, and raises IndexError exactly on an empty sequence |
| FakeData.SamplePositions | DATASET/fakedata.py:40 | `sample` gives k distinct positions below n, and raises ValueError exactly when k > n |
| FakeData.Pick | DATASET/fakedata.py:40 | picked elements are the population's elements at those positions |
| FakeData.PickDistinct | DATASET/fakedata.py:40 | distinct positions of a repeat-free population give distinct elements |
| FakeData.ListsDistinct | DATASET/fakedata.py:24-25 | the genre and tag lists have no repeats |
| FakeData.GenerateUser | DATASET/fakedata.py:31-42 | location is a region, age 18..70, gender one of three, interests 3 distinct genres, coordinates in range |
| FakeData.GenerateUsers | DATASET/fakedata.py:28-44 | exactly n users, each satisfying the bounds above |
| FakeData.GenerateContentItem | DATASET/fakedata.py:49-61 | type and genre from their lists, 3 distinct tags, 3 actors, duration "k mins" with 60 ≤ k ≤ 180 |
| FakeData.GenerateContent | DATASET/fakedata.py:46-63 | exactly n items, each satisfying the bounds above |
| FakeData.GenerateInteractionHistory | DATASET/fakedata.py:65-75 | IndexError exactly when n > 0 and users or content is empty; otherwise n interactions with ids from the inputs and a known interaction type |
| FakeData.GenerateRecommendations | DATASET/fakedata.py:77-88 | IndexError exactly when n > 0 and users or content is empty; otherwise n recommendations with ids from the inputs and one of the three reasons |
| FakeData.Titles | DATASET/fakedata.py:96 | the titles of the content list, in order |
| FakeData.GenerateRegionalTrends | DATASET/fakedata.py:90-104 | IndexError for no content, ValueError for one item; otherwise one trend per region in `regions` order, top content a title, 2 trending titles from distinct positions, views 1000..10000, likes 500..5000, shares 100..1000 |
| FakeData.Midnight | DATASET/fakedata.py:113 | `datetime.combine(d, time.min)` is the same day at 00:00:00.000000 |
| FakeData.ConvertDates | DATASET/fakedata.py:107-116 | the walk returns exactly `Converted(data)` |
| FakeData.ConvertedSettled | DATASET/fakedata.py:107-116 | after conversion no dict, at any depth, holds a plain date |
| FakeData.ConvertedFixed | DATASET/fakedata.py:107-116 | a document is left unchanged exactly when no dict in it holds a plain date |
| FakeData.ConvertIdempotent | DATASET/fakedata.py:107-116 | converting twice equals converting once |
| FakeData.ConvertedShape | DATASET/fakedata.py:107-116 | a list keeps its length with elements converted one by one; a dict keeps its key set, dates become midnight datetimes, nested containers are converted, other values are unchanged; scalars are unchanged |
| FakeData.ContentDateConverted | DATASET/fakedata.py:56-60 | in a converted content document the release date is midnight of the generated date |
| Dashboard.Lookup | UI/dashboard/app.py:1464 | the `.get` chain finds an entry exactly when all three keys are present |
| Dashboard.Underscores | UI/dashboard/app.py:1490 | `replace('_', ' ')` changes only underscores |
| Dashboard.TitleCase | UI/dashboard/app.py:1490 | `title()` keeps the length |
| Dashboard.BuildBarTraces | UI/dashboard/app.py:1486-1492 | one trace per `zip` pair, in order, named by `DisplayName` and coloured by its pair, or KeyError at the first metric missing |
| Dashboard.FormatRecommendations | UI/dashboard/app.py:1523-1529 | one text per stored recommendation, in order |
| Dashboard.GetMetrics | UI/dashboard/app.py:1460-1542 | an unknown database, region or query type gives the `'metrics'` KeyError message with status 500; otherwise success exactly when all five compared metrics are present, with the metrics and raw recommendations unchanged and the formatted texts in order |
| Dashboard.TitleCaseJoin | UI/dashboard/app.py:1490 | `title()` treats space-separated words independently |
| Dashboard.DisplayNameSpelling | UI/dashboard/app.py:1490 | a trace name spells its metric up to case, with spaces for underscores |
| Dashboard.CaseFold | UI/dashboard/app.py:1490 | upper- then lower-casing equals lower-casing |
| Dashboard.SplitBar | UI/dashboard/app.py:1525-1528 | splitting on `|` gives at least one part (reader for the round trip, not in the source) |
| Dashboard.SplitBarNone | UI/dashboard/app.py:1525-1528 | text without `|` splits into itself (reader for the round trip, not in the source) |
| Dashboard.SplitBarAppend | UI/dashboard/app.py:1525-1528 | splitting `a|b` with `|`-free `a` gives `a`, then the parts of `b` (reader for the round trip, not in the source) |
| Dashboard.Between | UI/dashboard/app.py:1525-1528 | the middle between a prefix and a suffix rebuilds the text (reader for the round trip, not in the source) |
| Dashboard.BetweenOf | UI/dashboard/app.py:1525-1528 | stripping a known prefix and suffix gives the middle back (reader for the round trip, not in the source) |
| Dashboard.NoBarInNumber | UI/dashboard/app.py:1527-1528 | a printed integer holds no `|` |
| Dashboard.NoBarIn | UI/dashboard/app.py:1525-1528 | a concatenation of `|`-free parts is `|`-free |
| Dashboard.FormatShape | UI/dashboard/app.py:1525-1528 | the text is the four labelled parts joined by `|` |
| Dashboard.SplitFour | UI/dashboard/app.py:1525-1528 | four `|`-free parts joined by `|` split back into those parts (reader for the round trip, not in the source) |
| Dashboard.FormatSplit | UI/dashboard/app.py:1525-1528 | a recommendation's text splits into its four labelled parts |
| Dashboard.FormatRoundTrip | UI/dashboard/app.py:1525-1528 | when title and type hold no `|`, parsing the text gives the recommendation back |
| Dashboard.FormatInjective | UI/dashboard/app.py:1525-1528 | distinct such recommendations get distinct texts |
| PerformanceData.ViewsOrdered | UI/dashboard/app.py:24-85 | neighbour-by-neighbour order of views gives the order of every pair |
| PerformanceData.LookupThrough | UI/dashboard/app.py:1464 | looking up a stored path gives the stored entry |
| PerformanceData.TableComplete | UI/dashboard/app.py:10-1454 | every database × region × query type has an entry, with exactly the eight metric keys, 10 Local or 5 Global recommendations, in non-increasing order of views |
| PerformanceData.ComparedAreStored | UI/dashboard/app.py:1474-1480 | the five compared metrics are among the eight stored keys |
| PerformanceData.StoredRequestsHaveMetrics | UI/dashboard/app.py:1464-1492 | a request naming a stored database, region and query type finds all five compared metrics, so the bar loop cannot raise |
| PerformanceData.MongoDBComplete | UI/dashboard/app.py:11-493 | every region and query type is stored for MongoDB, each entry well formed |
| PerformanceData.DynamoDBComplete | UI/dashboard/app.py:494-973 | every region and query type is stored for DynamoDB, each entry well formed |
| PerformanceData.ElasticSearchComplete | UI/dashboard/app.py:974-1453 | every region and query type is stored for ElasticSearch, each entry well formed |
| PerformanceData.MongoDBAsiaLocalOk | UI/dashboard/app.py:13-86 | the MongoDB Asia Local entry stores exactly the eight metric keys and 10 recommendations in non-increasing order of views |
| PerformanceData.MongoDBAsiaGlobalOk | UI/dashboard/app.py:87-131 | the MongoDB Asia Global entry stores exactly the eight metric keys and 5 recommendations in non-increasing order of views |
| PerformanceData.MongoDBEuropeLocalOk | UI/dashboard/app.py:133-206 | the MongoDB Europe Local entry stores exactly the eight metric keys and 10 recommendations in non-increasing order of views |
| PerformanceData.MongoDBEuropeGlobalOk | UI/dashboard/app.py:207-251 | the MongoDB Europe Global entry stores exactly the eight metric keys and 5 recommendations in non-increasing order of views |
| PerformanceData.MongoDBNorthAmericaLocalOk | UI/dashboard/app.py:253-326 | the MongoDB North America Local entry stores exactly the eight metric keys and 10 recommendations in non-increasing order of views |
| PerformanceData.MongoDBNorthAmericaGlobalOk | UI/dashboard/app.py:327-371 | the MongoDB North America Global entry stores exactly the eight metric keys and 5 recommendations in non-increasing order of views |
| PerformanceData.MongoDBSouthAmericaLocalOk | UI/dashboard/app.py:373-446 | the MongoDB South America Local entry stores exactly the eight metric keys and 10 recommendations in non-increasing order of views |
| PerformanceData.MongoDBSouthAmericaGlobalOk | UI/dashboard/app.py:447-493 | the MongoDB South America Global entry stores exactly the eight metric keys and 5 recommendations in non-increasing order of views |
| PerformanceData.DynamoDBAsiaLocalOk | UI/dashboard/app.py:495-568 | the DynamoDB Asia Local entry stores exactly the eight metric keys and 10 recommendations in non-increasing order of views |
| PerformanceData.DynamoDBAsiaGlobalOk | UI/dashboard/app.py:569-613 | the DynamoDB Asia Global entry stores exactly the eight metric keys and 5 recommendations in non-increasing order of views |
| PerformanceData.DynamoDBEuropeLocalOk | UI/dashboard/app.py:615-688 | the DynamoDB Europe Local entry stores exactly the eight metric keys and 10 recommendations in non-increasing order of views |
| PerformanceData.DynamoDBEuropeGlobalOk | UI/dashboard/app.py:689-733 | the DynamoDB Europe Global entry stores exactly the eight metric keys and 5 recommendations in non-increasing order of views |
| PerformanceData.DynamoDBNorthAmericaLocalOk | UI/dashboard/app.py:735-808 | the DynamoDB North America Local entry stores exactly the eight metric keys and 10 recommendations in non-increasing order of views |
| PerformanceData.DynamoDBNorthAmericaGlobalOk | UI/dashboard/app.py:809-853 | the DynamoDB North America Global entry stores exactly the eight metric keys and 5 recommendations in non-increasing order of views |
| PerformanceData.DynamoDBSouthAmericaLocalOk | UI/dashboard/app.py:855-928 | the DynamoDB South America Local entry stores exactly the eight metric keys and 10 recommendations in non-increasing order of views |
| PerformanceData.DynamoDBSouthAmericaGlobalOk | UI/dashboard/app.py:929-973 | the DynamoDB South America Global entry stores exactly the eight metric keys and 5 recommendations in non-increasing order of views |
| PerformanceData.ElasticSearchAsiaLocalOk | UI/dashboard/app.py:975-1048 | the ElasticSearch Asia Local entry stores exactly the eight metric keys and 10 recommendations in non-increasing order of views |
| PerformanceData.ElasticSearchAsiaGlobalOk | UI/dashboard/app.py:1049-1093 | the ElasticSearch Asia Global entry stores exactly the eight metric keys and 5 recommendations in non-increasing order of views |
| PerformanceData.ElasticSearchEuropeLocalOk | UI/dashboard/app.py:1095-1168 | the ElasticSearch Europe Local entry stores exactly the eight metric keys and 10 recommendations in non-increasing order of views |
| PerformanceData.ElasticSearchEuropeGlobalOk | UI/dashboard/app.py:1169-1213 | the ElasticSearch Europe Global entry stores exactly the eight metric keys and 5 recommendations in non-increasing order of views |
| PerformanceData.ElasticSearchNorthAmericaLocalOk | UI/dashboard/app.py:1215-1288 | the ElasticSearch North America Local entry stores exactly the eight metric keys and 10 recommendations in non-increasing order of views |
| PerformanceData.ElasticSearchNorthAmericaGlobalOk | UI/dashboard/app.py:1289-1333 | the ElasticSearch North America Global entry stores exactly the eight metric keys and 5 recommendations in non-increasing order of views |
| PerformanceData.ElasticSearchSouthAmericaLocalOk | UI/dashboard/app.py:1335-1408 | the ElasticSearch South America Local entry stores exactly the eight metric keys and 10 recommendations in non-increasing order of views |
| PerformanceData.ElasticSearchSouthAmericaGlobalOk | UI/dashboard/app.py:1409-1453 | the ElasticSearch South America Global entry stores exactly the eight metric keys and 5 recommendations in non-increasing order of views |
| PerformanceData.MongoDBAsiaOk | UI/dashboard/app.py:13-131 | both query types are stored for MongoDB in Asia, each entry well formed |
| PerformanceData.MongoDBEuropeOk | UI/dashboard/app.py:133-251 | both query types are stored for MongoDB in Europe, each entry well formed |
| PerformanceData.MongoDBNorthAmericaOk | UI/dashboard/app.py:253-371 | both query types are stored for MongoDB in North America, each entry well formed |
| PerformanceData.MongoDBSouthAmericaOk | UI/dashboard/app.py:373-493 | both query types are stored for MongoDB in South America, each entry well formed |
| PerformanceData.DynamoDBAsiaOk | UI/dashboard/app.py:495-613 | both query types are stored for DynamoDB in Asia, each entry well formed |
| PerformanceData.DynamoDBEuropeOk | UI/dashboard/app.py:615-733 | both query types are stored for DynamoDB in Europe, each entry well formed |
| PerformanceData.DynamoDBNorthAmericaOk | UI/dashboard/app.py:735-853 | both query types are stored for DynamoDB in North America, each entry well formed |
| PerformanceData.DynamoDBSouthAmericaOk | UI/dashboard/app.py:855-973 | both query types are stored for DynamoDB in South America, each entry well formed |
| PerformanceData.ElasticSearchAsiaOk | UI/dashboard/app.py:975-1093 | both query types are stored for ElasticSearch in Asia, each entry well formed |
| PerformanceData.ElasticSearchEuropeOk | UI/dashboard/app.py:1095-1213 | both query types are stored for ElasticSearch in Europe, each entry well formed |
| PerformanceData.ElasticSearchNorthAmericaOk | UI/dashboard/app.py:1215-1333 | both query types are stored for ElasticSearch in North America, each entry well formed |
| PerformanceData.ElasticSearchSouthAmericaOk | UI/dashboard/app.py:1335-1453 | both query types are stored for ElasticSearch in South America, each entry well formed |
| Decimal.NatToStringValue | UI/dashboard/app.py:1527-1528 | the decimal text of `str(n)` denotes n |
| Decimal.NatToStringCanonical | UI/dashboard/app.py:1527-1528 | `str(n)` has no leading zero except for 0 |
| Decimal.FixedValue | ElasticSearch/Final_Sharding_content.py:95 | the zero-padded field denotes its number |
| Decimal.IntToStringRoundTrip | UI/dashboard/app.py:1527-1528 | `int(str(i)) == i` |
| Decimal.IntToStringInjective | UI/dashboard/app.py:1527-1528 | distinct integers print differently |

## Left out

- Threads. The `ThreadPoolExecutor` fan-out in the loader runs sequentially here, in submission order, so the model fixes one interleaving of the regions' writes.
- The benchmark drivers: `measure_query_performance`, `execute_queries`, the MongoDB benchmark and the Elasticsearch query scripts. They measure time, CPU and memory with floating point.
- SDK behaviour:
  - boto3 (`create_table`, waiters, `batch_writer`, `scan`, `update_continuous_backups`): a scan is a parameter; other calls are logged requests whose acceptance is a parameter.
  - Elasticsearch (`indices.create`, `helpers.bulk`): the generator is modelled; `bulk` is its consumer.
  - MongoDB (`insert_many`, `delete_many`).
- `helpers.bulk`'s chunked sending. It buffers actions into chunks of 500 and sends a chunk when it is full or when the generator ends normally, so when an item raises, the actions of the pending partial chunk are never sent. The lemmas state what the generator yields, not what reaches Elasticsearch.
- Index creation and mappings of the Elasticsearch loaders. The `content_v2` name is kept only to state that actions do not target it.
- File I/O and module-level execution: `load_json_data`, the hard-coded JSON paths, `insert_data`, and the `main` of `load_tables.py`. The loader's error messages are printed and not modelled.
- Floats. Latitude, longitude, scores and dashboard metrics are Dafny reals. `round(..., 6)` and `round(..., 2)` are not modelled, and the metric values are opaque payloads.
- The detailed scatter chart, the Plotly figure JSON and `jsonify`. A bar trace keeps only its label, value, name and colour.
- `hashlib.sha256` is the parameter `hash` of `EsInteractionHistory.RoutingKey`.
- Faker text (uuid4, names, sentences, paragraphs) is arbitrary strings. `randomtimestamp` and `datetime.now()` give arbitrary timestamp strings.
- `str.title()` is modelled on ASCII letters only. `strptime` digits are ASCII only.
- Inputs the typed abstractions cannot represent:
  - `LoadTables.Record` is a dict. A record that is not a dict, for which `.pop('_id', None)` raises and `preprocess_data` drops it, is not modelled.
  - `DynamoQueries.TrendItem` holds `engagement_metrics` as a pair of views and likes, present or absent as a whole. Metrics with `total_views` but no `total_likes`, for which `regional_query` raises KeyError('total_likes') while `global_query` succeeds, are not modelled. The generated data never has either shape.
  - `DynamoQueries.TrendItem` holds `region` and `top_content` as strings and `engagement_metrics` as a record of two integers. Other item shapes are not modelled, and neither are the errors they raise:
    - A truthy non-string `top_content` that is hashable, such as a number, is summed under its own key.
    - An unhashable `top_content`, such as a list or map, raises TypeError at `aggregated[top_content]`.
    - An `engagement_metrics` that is not a map raises TypeError when subscripted.
    - A `total_views` or `total_likes` that `int()` rejects raises ValueError or TypeError.
    - So for such items, `GlobalQuery` and `RegionalQuery` do not state the exception the source raises.
- DynamoDB's `Decimal` numbers and `int()` of them: views and likes are integers in the model.
- `convert_dates` mutates a dict in place while iterating. The model returns the new document, so aliasing between the input and the output is not captured.
- ReleaseDate.Fraction: its contract says only that failure is a ValueError. That the value is below one second is checked by `MakeDateTime`, not stated here.
- FakeData.FakeDate: states only month and day bounds. `date_this_decade` depends on the clock, so the year and the true days-in-month bound are not stated.
- FakeData.Uniform: `uniform` can in principle return `hi` through rounding. Both ends are allowed.
