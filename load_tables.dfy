/** The DynamoDB loader (DynamoDB/load_tables.py): per-table record
    preprocessing, fixed-size chunking for batch writes, and the two placement
    policies: distribute each record to the region named in one of its
    columns, or replicate every record to all four regions.

    The SDK is abstracted as a log of batch-write requests: each call of
    `batch_write_to_table` appends one `BatchWrite` naming the region code, the
    table and the records handed to the table's batch writer. */
module LoadTables {
  import opened Values

  /** A record as `json.load` returns it: a dict from attribute names to values. */
  type Record = map<string, Value>

  /** The keys of the `regions` map, in its insertion order. */
  const RegionNames: seq<string> := ["North America", "South America", "Europe", "Asia"]

  /** The `regions` map: region name to AWS region code. */
  const RegionCodes: map<string, string> := map[
    "North America" := "us-east-1",
    "South America" := "sa-east-1",
    "Europe" := "eu-central-1",
    "Asia" := "ap-south-1"
  ]

  /** The default `chunk_size` of `chunk_data`, DynamoDB's batch-write limit. */
  const ChunkSize: nat := 25

  // ---------------------------------------------------------------------------
  // Preprocessing

  /** For the tables whose `_id` is moved: when `_id` holds `$oid`, store that
      value under `idField` and drop `_id`. Python's `'$oid' in record['_id']`
      and the subscript that follows raise TypeError unless `_id` is a dict
      (`in` also works on lists and strings, but indexing them by a string
      then fails). */
  function MoveOid(record: Record, idField: string): (r: Result<Record>)
    requires idField != "_id"
    ensures "_id" !in record ==> r == Ok(record)
    ensures "_id" in record && record["_id"].Dict? && "$oid" in record["_id"].fields ==>
      r.Ok? && r.value.Keys == record.Keys - {"_id"} + {idField}
      && r.value[idField] == record["_id"].fields["$oid"]
      && forall k :: k in record && k != "_id" && k != idField ==> r.value[k] == record[k]
    ensures "_id" in record && Contains(record["_id"], "$oid") == Ok(false) ==> r == Ok(record)
    ensures r.Err? <==> "_id" in record && (Contains(record["_id"], "$oid").Err?
                                           || (!record["_id"].Dict? && Contains(record["_id"], "$oid") == Ok(true)))
  {
    if "_id" !in record then Ok(record)
    else
      var found :- Contains(record["_id"], "$oid");
      if !found then Ok(record)
      else
        var oid :- Subscript(record["_id"], "$oid");
        Ok(record[idField := oid] - {"_id"})
  }

  /** `preprocess_data` applied to one record: the processed record, or the
      exception that makes the loop log and drop it. */
  function PreprocessRecord(record: Record, tableName: string): (r: Result<Record>)
    ensures tableName == "Users" || tableName == "Content" ==>
      r.Ok? && r.value.Keys == record.Keys - {"_id"} && forall k :: k in r.value ==> r.value[k] == record[k]
    ensures tableName == "RegionalTrends" ==> r == MoveOid(record, "regional_trends_id")
    ensures tableName == "InteractionHistory" ==> r == MoveOid(record, "interaction_history_id")
    ensures tableName !in {"Users", "Content", "RegionalTrends", "InteractionHistory"} ==> r == Ok(record)
  {
    if tableName == "Users" then Ok(record - {"_id"})
    else if tableName == "RegionalTrends" then MoveOid(record, "regional_trends_id")
    else if tableName == "Content" then Ok(record - {"_id"})
    else if tableName == "InteractionHistory" then MoveOid(record, "interaction_history_id")
    else Ok(record)
  }

  /** What `preprocess_data` returns: the processed records, in input order,
      without those whose processing raised. */
  function Preprocessed(raw: seq<Record>, tableName: string): (p: seq<Record>)
    ensures |p| <= |raw|
  {
    if raw == [] then []
    else
      var before := Preprocessed(raw[..|raw| - 1], tableName);
      match PreprocessRecord(raw[|raw| - 1], tableName)
      case Ok(record) => before + [record]
      case Err(_) => before
  }

  /** `preprocess_data`: one pass over the records, appending each processed
      record and skipping (after logging) those that raise. */
  method PreprocessData(raw: seq<Record>, tableName: string) returns (processed: seq<Record>)
    ensures processed == Preprocessed(raw, tableName)
  {
    processed := [];
    for i := 0 to |raw|
      invariant processed == Preprocessed(raw[..i], tableName)
    {
      assert raw[..i + 1][..i] == raw[..i];
      var outcome := PreprocessRecord(raw[i], tableName);
      if outcome.Ok? {
        processed := processed + [outcome.value];
      }
    }
    assert raw[..|raw|] == raw;
  }

  /** When no record raises, preprocessing keeps every record, in order, each
      processed on its own. */
  lemma {:induction false} PreprocessedKeepsAll(raw: seq<Record>, tableName: string)
    requires forall i :: 0 <= i < |raw| ==> PreprocessRecord(raw[i], tableName).Ok?
    ensures |Preprocessed(raw, tableName)| == |raw|
    ensures forall i :: 0 <= i < |raw| ==> Preprocessed(raw, tableName)[i] == PreprocessRecord(raw[i], tableName).value
  {
    if raw != [] {
      var init := raw[..|raw| - 1];
      PreprocessedKeepsAll(init, tableName);
    }
  }

  /** The records of a table that is not RegionalTrends or InteractionHistory
      are never dropped. */
  lemma PreprocessedUsersContent(raw: seq<Record>, tableName: string)
    requires tableName !in {"RegionalTrends", "InteractionHistory"}
    ensures |Preprocessed(raw, tableName)| == |raw|
    ensures tableName == "Users" || tableName == "Content" ==>
      forall i :: 0 <= i < |raw| ==> Preprocessed(raw, tableName)[i] == raw[i] - {"_id"}
    ensures tableName != "Users" && tableName != "Content" ==> Preprocessed(raw, tableName) == raw
  {
    PreprocessedKeepsAll(raw, tableName);
  }

  /** The positions of the records whose processing succeeds, in increasing
      order: every such position, and no other. */
  function Survivors(raw: seq<Record>, tableName: string): (s: seq<nat>)
    ensures forall j :: 0 <= j < |s| ==> s[j] < |raw| && PreprocessRecord(raw[s[j]], tableName).Ok?
    ensures forall j, k :: 0 <= j < k < |s| ==> s[j] < s[k]
    ensures forall i :: 0 <= i < |raw| && PreprocessRecord(raw[i], tableName).Ok? ==> i in s
  {
    if raw == [] then []
    else
      var init := raw[..|raw| - 1];
      var before := Survivors(init, tableName);
      assert forall i :: 0 <= i < |init| ==> init[i] == raw[i];
      if PreprocessRecord(raw[|raw| - 1], tableName).Ok? then before + [|raw| - 1] else before
  }

  /** Preprocessing keeps exactly the records that do not raise, each once,
      in input order, each replaced by its processed form; the output is
      shorter than the input by the number of records that raised. */
  lemma {:induction false} PreprocessedDropsOnlyFailures(raw: seq<Record>, tableName: string)
    ensures var p, s := Preprocessed(raw, tableName), Survivors(raw, tableName);
      && |p| == |s|
      && forall j :: 0 <= j < |p| ==> p[j] == PreprocessRecord(raw[s[j]], tableName).value
    ensures |Preprocessed(raw, tableName)| == |raw| - |Failures(raw, tableName)|
  {
    if raw != [] {
      var init := raw[..|raw| - 1];
      PreprocessedDropsOnlyFailures(init, tableName);
      var s0 := Survivors(init, tableName);
      forall j | 0 <= j < |s0|
        ensures raw[s0[j]] == init[s0[j]]
      {
      }
    }
  }

  /** The positions of the records whose processing raises. */
  function Failures(raw: seq<Record>, tableName: string): (f: seq<nat>)
    ensures forall j :: 0 <= j < |f| ==> f[j] < |raw| && PreprocessRecord(raw[f[j]], tableName).Err?
  {
    if raw == [] then []
    else
      var before := Failures(raw[..|raw| - 1], tableName);
      if PreprocessRecord(raw[|raw| - 1], tableName).Err? then before + [|raw| - 1] else before
  }

  // ---------------------------------------------------------------------------
  // Chunking

  /** `chunk_data`: the consecutive slices `data[i:i + size]` for `i` in
      `range(0, len(data), size)`. */
  function Chunks<T>(data: seq<T>, size: nat): seq<seq<T>>
    requires size > 0
    decreases |data|
  {
    if data == [] then []
    else if |data| <= size then [data]
    else [data[..size]] + Chunks(data[size..], size)
  }

  function Flatten<T>(chunks: seq<seq<T>>): seq<T> {
    if chunks == [] then [] else chunks[0] + Flatten(chunks[1..])
  }

  /** Concatenating the chunks in order gives back exactly the input. */
  lemma {:induction false} ChunksFlatten<T>(data: seq<T>, size: nat)
    requires size > 0
    ensures Flatten(Chunks(data, size)) == data
    decreases |data|
  {
    if data != [] && |data| > size {
      ChunksFlatten(data[size..], size);
      assert ([data[..size]] + Chunks(data[size..], size))[1..] == Chunks(data[size..], size);
      assert data == data[..size] + data[size..];
    }
  }

  /** Every chunk is non-empty and holds at most `size` records, and all but
      the last hold exactly `size`. */
  lemma {:induction false} ChunksSizes<T>(data: seq<T>, size: nat)
    requires size > 0
    ensures forall i :: 0 <= i < |Chunks(data, size)| ==> 1 <= |Chunks(data, size)[i]| <= size
    ensures forall i :: 0 <= i < |Chunks(data, size)| - 1 ==> |Chunks(data, size)[i]| == size
    decreases |data|
  {
    if data != [] && |data| > size {
      ChunksSizes(data[size..], size);
      var rest := Chunks(data[size..], size);
      assert Chunks(data, size) == [data[..size]] + rest;
    }
  }

  /** There are ceil(n / 25) chunks of the default size. */
  lemma {:induction false} ChunksCount<T>(data: seq<T>)
    ensures |Chunks(data, ChunkSize)| == (|data| + ChunkSize - 1) / ChunkSize
    decreases |data|
  {
    if data != [] && |data| > ChunkSize {
      ChunksCount(data[ChunkSize..]);
    }
  }

  // ---------------------------------------------------------------------------
  // Batch writes

  /** One call of `batch_write_to_table`: the records handed to the batch
      writer of one table in one region. */
  datatype BatchWrite = BatchWrite(regionCode: string, tableName: string, records: seq<Record>)

  /** The batch writes the loader has issued so far, in order. */
  class WriteLog {
    var writes: seq<BatchWrite>

    constructor ()
      ensures writes == []
    {
      writes := [];
    }
  }

  /** `batch_write_to_table`: hands `data` to the table's batch writer. A
      ClientError or any other exception is caught and printed, so the call
      always returns normally; whether the service stored the records is not
      modelled. */
  method BatchWriteToTable(log: WriteLog, regionCode: string, tableName: string, data: seq<Record>)
    modifies log
    ensures log.writes == old(log.writes) + [BatchWrite(regionCode, tableName, data)]
  {
    log.writes := log.writes + [BatchWrite(regionCode, tableName, data)];
  }

  /** The batch writes `write_data_in_chunks` issues: one per chunk, in order. */
  function ChunkWrites(regionCode: string, tableName: string, data: seq<Record>): (w: seq<BatchWrite>)
    ensures |w| == |Chunks(data, ChunkSize)|
  {
    var chunks := Chunks(data, ChunkSize);
    seq(|chunks|, i requires 0 <= i < |chunks| => BatchWrite(regionCode, tableName, chunks[i]))
  }

  /** `write_data_in_chunks`: one batch write per chunk of 25, in input order. */
  method WriteDataInChunks(log: WriteLog, regionCode: string, tableName: string, data: seq<Record>)
    modifies log
    ensures log.writes == old(log.writes) + ChunkWrites(regionCode, tableName, data)
  {
    var chunks := Chunks(data, ChunkSize);
    for i := 0 to |chunks|
      invariant log.writes == old(log.writes) + ChunkWrites(regionCode, tableName, data)[..i]
    {
      BatchWriteToTable(log, regionCode, tableName, chunks[i]);
      assert ChunkWrites(regionCode, tableName, data)[..i + 1]
          == ChunkWrites(regionCode, tableName, data)[..i] + [BatchWrite(regionCode, tableName, chunks[i])];
    }
    assert ChunkWrites(regionCode, tableName, data)[..|chunks|] == ChunkWrites(regionCode, tableName, data);
  }

  /** The records handed to the writer for region `code`, in the order the
      batch writes were issued. */
  function RecordsTo(writes: seq<BatchWrite>, code: string): seq<Record> {
    if writes == [] then []
    else RecordsTo(writes[..|writes| - 1], code)
         + (if writes[|writes| - 1].regionCode == code then writes[|writes| - 1].records else [])
  }

  lemma {:induction false} RecordsToAppend(a: seq<BatchWrite>, b: seq<BatchWrite>, code: string)
    ensures RecordsTo(a + b, code) == RecordsTo(a, code) + RecordsTo(b, code)
    decreases |b|
  {
    if b == [] {
      assert a + b == a;
    } else {
      var b' := b[..|b| - 1];
      RecordsToAppend(a, b', code);
      assert (a + b)[..|a + b| - 1] == a + b';
      assert (a + b)[|a + b| - 1] == b[|b| - 1];
    }
  }

  lemma {:induction false} RecordsToChunks(chunks: seq<seq<Record>>, regionCode: string, tableName: string, code: string)
    ensures var w := seq(|chunks|, i requires 0 <= i < |chunks| => BatchWrite(regionCode, tableName, chunks[i]));
      RecordsTo(w, code) == if regionCode == code then Flatten(chunks) else []
  {
    var w := seq(|chunks|, i requires 0 <= i < |chunks| => BatchWrite(regionCode, tableName, chunks[i]));
    if chunks != [] {
      var tail := chunks[1..];
      var wt := seq(|tail|, i requires 0 <= i < |tail| => BatchWrite(regionCode, tableName, tail[i]));
      RecordsToChunks(tail, regionCode, tableName, code);
      assert w == [BatchWrite(regionCode, tableName, chunks[0])] + wt;
      RecordsToAppend([BatchWrite(regionCode, tableName, chunks[0])], wt, code);
      assert RecordsTo([BatchWrite(regionCode, tableName, chunks[0])], code)
          == if regionCode == code then chunks[0] else [];
    }
  }

  /** Writing in chunks hands each record to the region's writer exactly
      once, in input order, and nothing to any other region. */
  lemma ChunkWritesRecords(regionCode: string, tableName: string, data: seq<Record>, code: string)
    ensures RecordsTo(ChunkWrites(regionCode, tableName, data), code) == if regionCode == code then data else []
  {
    RecordsToChunks(Chunks(data, ChunkSize), regionCode, tableName, code);
    ChunksFlatten(data, ChunkSize);
  }

  // ---------------------------------------------------------------------------
  // Distribution by region

  /** The region value `record.get(column)` yields, as a string when it is one. */
  predicate InRegion(record: Record, column: string, region: string) {
    column in record && record[column] == Str(region)
  }

  /** The bucket of `region` in `regional_data`: the records whose `column`
      value is the string `region`, in input order. */
  function Bucket(data: seq<Record>, column: string, region: string): (b: seq<Record>)
    ensures |b| <= |data|
  {
    if data == [] then []
    else Bucket(data[..|data| - 1], column, region)
         + (if InRegion(data[|data| - 1], column, region) then [data[|data| - 1]] else [])
  }

  /** The records whose `column` value is none of `names`; for the four
      region names, the records no region receives. */
  function Unrouted(data: seq<Record>, column: string, names: seq<string>): seq<Record> {
    if data == [] then []
    else Unrouted(data[..|data| - 1], column, names)
         + (if NamedIn(data[|data| - 1], column, names) then [] else [data[|data| - 1]])
  }

  /** Testing `record_region in regional_data` raises TypeError for a list or
      dict value; the loop succeeds only when no record has one. */
  predicate ColumnHashable(data: seq<Record>, column: string) {
    forall i :: 0 <= i < |data| && column in data[i] ==> Hashable(data[i][column])
  }

  /** The loop of `distribute_data_across_regions` that fills `regional_data`. */
  method GroupByRegion(data: seq<Record>, column: string) returns (grouped: Result<map<string, seq<Record>>>)
    ensures grouped.Ok? <==> ColumnHashable(data, column)
    ensures grouped.Err? ==> grouped.error == TypeError
    ensures grouped.Ok? ==>
      && grouped.value.Keys == set r | r in RegionNames
      && forall r :: r in RegionNames ==> r in grouped.value && grouped.value[r] == Bucket(data, column, r)
    ensures grouped.Ok? ==> forall i :: 0 <= i < |RegionNames| ==>
      RegionNames[i] in grouped.value && grouped.value[RegionNames[i]] == Bucket(data, column, RegionNames[i])
  {
    var regional: map<string, seq<Record>> := map r | r in RegionNames :: [];
    for i := 0 to |data|
      invariant ColumnHashable(data[..i], column)
      invariant regional.Keys == set r | r in RegionNames
      invariant forall r :: r in RegionNames ==> r in regional && regional[r] == Bucket(data[..i], column, r)
    {
      assert data[..i + 1][..i] == data[..i];
      var recordRegion := if column in data[i] then data[i][column] else Null;
      if !Hashable(recordRegion) {
        return Err(TypeError);
      }
      if recordRegion.Str? && recordRegion.s in regional {
        regional := regional[recordRegion.s := regional[recordRegion.s] + [data[i]]];
      }
    }
    assert data[..|data|] == data;
    assert forall i :: 0 <= i < |RegionNames| ==> RegionNames[i] in RegionNames;
    grouped := Ok(regional);
  }

  /** The writes issued for the regions in `names`, in that order: each
      non-empty bucket is written in chunks to its region's code. */
  function DistributionWrites(names: seq<string>, data: seq<Record>, tableName: string, column: string): seq<BatchWrite>
    requires forall r :: r in names ==> r in RegionCodes
  {
    if names == [] then []
    else
      var region := names[|names| - 1];
      var bucket := Bucket(data, column, region);
      DistributionWrites(names[..|names| - 1], data, tableName, column)
      + (if bucket != [] then ChunkWrites(RegionCodes[region], tableName, bucket) else [])
  }

  /** One turn of the second loop of `distribute_data_across_regions`: the
      region's bucket, when non-empty, is written after what came before. */
  lemma DistributionWritesStep(base: seq<BatchWrite>, names: seq<string>, i: nat, data: seq<Record>,
                               tableName: string, column: string, before: seq<BatchWrite>, after: seq<BatchWrite>)
    requires i < |names|
    requires forall r :: r in names ==> r in RegionCodes
    requires before == base + DistributionWrites(names[..i], data, tableName, column)
    requires after == before + (if Bucket(data, column, names[i]) != []
                                then ChunkWrites(RegionCodes[names[i]], tableName, Bucket(data, column, names[i])) else [])
    ensures after == base + DistributionWrites(names[..i + 1], data, tableName, column)
  {
    assert names[..i + 1][..i] == names[..i];
  }

  /** Every region name has a code. */
  lemma RegionNamesHaveCodes()
    ensures forall r :: r in RegionNames ==> r in RegionCodes
  {
  }

  /** The second loop of `distribute_data_across_regions`: each region's
      non-empty bucket, in the order of `regions`, goes to that region. */
  method WriteRegions(log: WriteLog, regional: map<string, seq<Record>>, data: seq<Record>, tableName: string, column: string)
    requires forall i :: 0 <= i < |RegionNames| ==>
      RegionNames[i] in regional && regional[RegionNames[i]] == Bucket(data, column, RegionNames[i])
    modifies log
    ensures log.writes == old(log.writes) + DistributionWrites(RegionNames, data, tableName, column)
  {
    RegionNamesHaveCodes();
    WriteRegionsIn(log, RegionNames, regional, data, tableName, column);
  }

  /** That loop over a list of region names, each of which has a code. */
  method WriteRegionsIn(log: WriteLog, names: seq<string>, regional: map<string, seq<Record>>, data: seq<Record>,
                        tableName: string, column: string)
    requires forall r :: r in names ==> r in RegionCodes
    requires forall i :: 0 <= i < |names| ==> names[i] in regional && regional[names[i]] == Bucket(data, column, names[i])
    modifies log
    ensures log.writes == old(log.writes) + DistributionWrites(names, data, tableName, column)
  {
    for i := 0 to |names|
      invariant log.writes == old(log.writes) + DistributionWrites(names[..i], data, tableName, column)
    {
      ghost var before := log.writes;
      var region := names[i];
      if regional[region] != [] {
        WriteDataInChunks(log, RegionCodes[region], tableName, regional[region]);
      }
      DistributionWritesStep(old(log.writes), names, i, data, tableName, column, before, log.writes);
    }
    assert names[..|names|] == names;
  }

  /** `distribute_data_across_regions`: preprocess, group by the region in
      `column`, then write each non-empty bucket to its region. A TypeError
      while grouping propagates before anything is written. */
  method DistributeDataAcrossRegions(log: WriteLog, data: seq<Record>, tableName: string, column: string)
    returns (outcome: Result<()>)
    modifies log
    ensures outcome.Ok? <==> ColumnHashable(Preprocessed(data, tableName), column)
    ensures outcome.Ok? ==>
      log.writes == old(log.writes) + DistributionWrites(RegionNames, Preprocessed(data, tableName), tableName, column)
    ensures outcome.Err? ==> log.writes == old(log.writes)
  {
    var processed := PreprocessData(data, tableName);
    var grouped := GroupByRegion(processed, column);
    if grouped.Err? {
      return Err(grouped.error);
    }
    WriteRegions(log, grouped.value, processed, tableName, column);
    outcome := Ok(());
  }

  /** A record lands in the bucket of `region` exactly when its column value
      is that region; so no record is in two buckets. */
  lemma {:induction false} BucketMembers(data: seq<Record>, column: string, region: string)
    ensures forall x :: x in Bucket(data, column, region) <==> x in data && InRegion(x, column, region)
  {
    if data != [] {
      BucketMembers(data[..|data| - 1], column, region);
      assert data == data[..|data| - 1] + [data[|data| - 1]];
    }
  }

  lemma BucketsDisjoint(data: seq<Record>, column: string, r1: string, r2: string)
    requires r1 != r2
    ensures forall x :: x in Bucket(data, column, r1) ==> x !in Bucket(data, column, r2)
  {
    BucketMembers(data, column, r1);
    BucketMembers(data, column, r2);
  }

  lemma {:induction false} BucketStep(init: seq<Record>, x: Record, column: string, region: string)
    ensures Bucket(init + [x], column, region)
         == Bucket(init, column, region) + (if InRegion(x, column, region) then [x] else [])
  {
    assert (init + [x])[..|init|] == init;
  }

  lemma {:induction false} UnroutedStep(init: seq<Record>, x: Record, column: string, names: seq<string>)
    ensures Unrouted(init + [x], column, names)
         == Unrouted(init, column, names) + (if NamedIn(x, column, names) then [] else [x])
  {
    assert (init + [x])[..|init|] == init;
  }

  /** The buckets of the regions in `names`, pooled. */
  function BucketsOf(names: seq<string>, data: seq<Record>, column: string): multiset<Record> {
    if names == [] then multiset{}
    else BucketsOf(names[..|names| - 1], data, column) + multiset(Bucket(data, column, names[|names| - 1]))
  }

  /** Whether the record's `column` value is one of `names`. */
  predicate NamedIn(record: Record, column: string, names: seq<string>) {
    column in record && record[column].Str? && record[column].s in names
  }

  /** Appending a record adds it to the pooled buckets once if its region is
      among `names`, and not at all otherwise. */
  lemma {:induction false} BucketsOfStep(names: seq<string>, init: seq<Record>, x: Record, column: string)
    requires forall i, j :: 0 <= i < j < |names| ==> names[i] != names[j]
    ensures BucketsOf(names, init + [x], column)
         == BucketsOf(names, init, column) + (if NamedIn(x, column, names) then multiset{x} else multiset{})
  {
    if names != [] {
      var prefix := names[..|names| - 1];
      var last := names[|names| - 1];
      assert names == prefix + [last];
      BucketsOfStep(prefix, init, x, column);
      BucketStep(init, x, column, last);
      assert NamedIn(x, column, names) <==> NamedIn(x, column, prefix) || InRegion(x, column, last);
      assert !(NamedIn(x, column, prefix) && InRegion(x, column, last));
    }
  }

  lemma RegionNamesDistinct()
    ensures forall i, j :: 0 <= i < j < |RegionNames| ==> RegionNames[i] != RegionNames[j]
  {
    assert RegionNames[0][0] == 'N' && RegionNames[1][0] == 'S';
    assert |RegionNames[2]| == 6 && |RegionNames[3]| == 4;
  }

  lemma {:induction false} BucketsOfEmpty(names: seq<string>, column: string)
    ensures BucketsOf(names, [], column) == multiset{}
  {
    if names != [] {
      BucketsOfEmpty(names[..|names| - 1], column);
    }
  }

  /** Nothing is lost or duplicated: for distinct region names, their buckets
      and the unrouted records together hold every input record exactly once. */
  lemma {:induction false} BucketsPartition(names: seq<string>, data: seq<Record>, column: string)
    requires forall i, j :: 0 <= i < j < |names| ==> names[i] != names[j]
    ensures BucketsOf(names, data, column) + multiset(Unrouted(data, column, names)) == multiset(data)
  {
    if data == [] {
      BucketsOfEmpty(names, column);
    } else {
      var init := data[..|data| - 1];
      var x := data[|data| - 1];
      assert data == init + [x];
      BucketsPartition(names, init, column);
      BucketsOfStep(names, init, x, column);
      UnroutedStep(init, x, column, names);
      var pooled, rest := BucketsOf(names, init, column), Unrouted(init, column, names);
      if NamedIn(x, column, names) {
        assert BucketsOf(names, data, column) == pooled + multiset{x};
        assert Unrouted(data, column, names) == rest;
        assert multiset(data) == multiset(init) + multiset{x};
      } else {
        assert BucketsOf(names, data, column) == pooled;
        assert multiset(Unrouted(data, column, names)) == multiset(rest) + multiset{x};
        assert multiset(data) == multiset(init) + multiset{x};
      }
      calc {
        BucketsOf(names, data, column) + multiset(Unrouted(data, column, names));
        (pooled + multiset(rest)) + multiset{x};
        multiset(init) + multiset{x};
        multiset(data);
      }
    }
  }

  /** The partition for the four regions of `regions`. */
  lemma RegionsPartition(data: seq<Record>, column: string)
    ensures BucketsOf(RegionNames, data, column) + multiset(Unrouted(data, column, RegionNames)) == multiset(data)
  {
    RegionNamesDistinct();
    BucketsPartition(RegionNames, data, column);
  }

  /** Distinct region names have distinct region codes. */
  lemma RegionCodesInjective(r1: string, r2: string)
    requires r1 in RegionCodes && r2 in RegionCodes && r1 != r2
    ensures RegionCodes[r1] != RegionCodes[r2]
  {
  }

  lemma {:induction false} DistributionWritesTo(names: seq<string>, data: seq<Record>, tableName: string, column: string, region: string)
    requires forall r :: r in names ==> r in RegionCodes
    requires forall i, j :: 0 <= i < j < |names| ==> names[i] != names[j]
    requires region in RegionCodes
    ensures RecordsTo(DistributionWrites(names, data, tableName, column), RegionCodes[region])
         == if region in names then Bucket(data, column, region) else []
  {
    if names != [] {
      var init := names[..|names| - 1];
      var last := names[|names| - 1];
      assert names == init + [last];
      DistributionWritesTo(init, data, tableName, column, region);
      var bucket := Bucket(data, column, last);
      var tail := if bucket != [] then ChunkWrites(RegionCodes[last], tableName, bucket) else [];
      RecordsToAppend(DistributionWrites(init, data, tableName, column), tail, RegionCodes[region]);
      ChunkWritesRecords(RegionCodes[last], tableName, bucket, RegionCodes[region]);
      if last != region {
        RegionCodesInjective(last, region);
      } else {
        assert region !in init;
      }
    }
  }

  /** After distribution, the writer of each region's code received exactly
      that region's bucket, in input order. */
  lemma DistributionReachesEachRegion(data: seq<Record>, tableName: string, column: string, region: string)
    requires region in RegionNames
    ensures RecordsTo(DistributionWrites(RegionNames, data, tableName, column), RegionCodes[region])
         == Bucket(data, column, region)
  {
    DistributionWritesTo(RegionNames, data, tableName, column, region);
  }

  // ---------------------------------------------------------------------------
  // Replication

  /** The writes of `replicate_data_across_regions`: the whole list, in
      chunks, to each region code in the order of `regions.values()`. */
  function ReplicationWrites(codes: seq<string>, data: seq<Record>, tableName: string): seq<BatchWrite> {
    if codes == [] then []
    else ReplicationWrites(codes[..|codes| - 1], data, tableName) + ChunkWrites(codes[|codes| - 1], tableName, data)
  }

  /** The region codes in the order `regions.values()` yields them: the
      code of each region name, in the order of the names, no code twice. */
  function RegionCodeOrder(): (codes: seq<string>)
    ensures |codes| == |RegionNames|
    ensures forall i :: 0 <= i < |codes| ==> RegionNames[i] in RegionCodes && codes[i] == RegionCodes[RegionNames[i]]
    ensures forall i, j :: 0 <= i < j < |codes| ==> codes[i] != codes[j]
  {
    seq(|RegionNames|, i requires 0 <= i < |RegionNames| => RegionCodes[RegionNames[i]])
  }

  /** `replicate_data_across_regions`: preprocess, then write the full list to
      every region. */
  method ReplicateDataAcrossRegions(log: WriteLog, data: seq<Record>, tableName: string)
    modifies log
    ensures log.writes == old(log.writes) + ReplicationWrites(RegionCodeOrder(), Preprocessed(data, tableName), tableName)
  {
    var processed := PreprocessData(data, tableName);
    var codes := RegionCodeOrder();
    for i := 0 to |codes|
      invariant log.writes == old(log.writes) + ReplicationWrites(codes[..i], processed, tableName)
    {
      assert codes[..i + 1][..i] == codes[..i];
      WriteDataInChunks(log, codes[i], tableName, processed);
    }
    assert codes[..|codes|] == codes;
  }

  /** Replication hands the whole preprocessed list, in order, to the writer
      of each of the four region codes. */
  lemma {:induction false} ReplicationReachesEachRegion(codes: seq<string>, data: seq<Record>, tableName: string, code: string)
    requires code in codes
    requires forall i, j :: 0 <= i < j < |codes| ==> codes[i] != codes[j]
    ensures RecordsTo(ReplicationWrites(codes, data, tableName), code) == data
  {
    var init := codes[..|codes| - 1];
    var last := codes[|codes| - 1];
    var earlier := ReplicationWrites(init, data, tableName);
    assert ReplicationWrites(codes, data, tableName) == earlier + ChunkWrites(last, tableName, data);
    RecordsToAppend(earlier, ChunkWrites(last, tableName, data), code);
    ChunkWritesRecords(last, tableName, data, code);
    var k :| 0 <= k < |codes| && codes[k] == code;
    if k == |codes| - 1 {
      forall m | 0 <= m < |init|
        ensures init[m] != code
      {
        assert init[m] == codes[m];
      }
      ReplicationMissesOthers(init, data, tableName, code);
      assert RecordsTo(earlier, code) == [];
    } else {
      assert init[k] == code;
      forall m, n | 0 <= m < n < |init|
        ensures init[m] != init[n]
      {
        assert init[m] == codes[m] && init[n] == codes[n];
      }
      ReplicationReachesEachRegion(init, data, tableName, code);
      assert last != code;
    }
  }

  /** After replication, the writer of every region's code has received the
      whole preprocessed list, in order. */
  lemma ReplicationReachesRegion(data: seq<Record>, tableName: string, r: nat)
    requires r < |RegionNames|
    ensures RegionNames[r] in RegionCodes
    ensures RecordsTo(ReplicationWrites(RegionCodeOrder(), Preprocessed(data, tableName), tableName),
                      RegionCodes[RegionNames[r]]) == Preprocessed(data, tableName)
  {
    var codes := RegionCodeOrder();
    assert codes[r] in codes;
    ReplicationReachesEachRegion(codes, Preprocessed(data, tableName), tableName, codes[r]);
  }

  lemma {:induction false} ReplicationMissesOthers(codes: seq<string>, data: seq<Record>, tableName: string, code: string)
    requires code !in codes
    ensures RecordsTo(ReplicationWrites(codes, data, tableName), code) == []
  {
    if codes != [] {
      var init := codes[..|codes| - 1];
      var last := codes[|codes| - 1];
      ReplicationMissesOthers(init, data, tableName, code);
      RecordsToAppend(ReplicationWrites(init, data, tableName), ChunkWrites(last, tableName, data), code);
      ChunkWritesRecords(last, tableName, data, code);
    }
  }
}
