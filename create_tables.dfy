/** The table setup script: the key schema of each on-demand table, the four
    tables of the data model, point-in-time recovery on each of them, and
    the loop over the four AWS regions. The DynamoDB service is a log of
    the requests the script sends; whether the service accepts a request is
    an input, since every error is caught and printed. */
module CreateTables {

  import opened Values

  /** The `regions` list of the script, in order. */
  const SetupRegions: seq<string> := ["us-east-1", "sa-east-1", "eu-central-1", "ap-south-1"]

  datatype KeyType = Hash | Range

  /** An entry of `KeySchema`. */
  datatype KeySchemaElement = KeySchemaElement(attributeName: string, keyType: KeyType)

  /** An entry of `AttributeDefinitions`; every type the script writes is "S". */
  datatype AttributeDefinition = AttributeDefinition(attributeName: string, attributeType: string)

  /** A request the script sends to the DynamoDB endpoint of `region`. */
  datatype Request =
    | CreateTable(region: string, tableName: string, keySchema: seq<KeySchemaElement>,
                  attributeDefinitions: seq<AttributeDefinition>, billingMode: string)
    | EnablePointInTimeRecovery(region: string, tableName: string)

  /** A request together with whether the service accepted it. */
  datatype Attempt = Attempt(request: Request, accepted: bool)

  /** A table of the data model: its name, partition key and optional sort key. */
  datatype TableSpec = TableSpec(name: string, partitionKey: string, sortKey: Option<string>)

  /** The four tables `create_tables_on_demand` creates, in order. */
  const DataModelTables: seq<TableSpec> := [
    TableSpec("Users", "location", Some("user_id")),
    TableSpec("RegionalTrends", "region", Some("regional_trends_id")),
    TableSpec("Content", "genre", Some("content_id")),
    TableSpec("InteractionHistory", "user_id", Some("interaction_history_id"))
  ]

  /** The `tables` list of `setup_fault_tolerance`. */
  const PitrTables: seq<string> := ["Users", "RegionalTrends", "Content", "InteractionHistory"]

  /** Whether `sort_key` is truthy: given and not the empty string. */
  predicate HasSortKey(sortKey: Option<string>) {
    sortKey.Some? && sortKey.value != ""
  }

  /** The key schema `create_table_on_demand` sends: the partition key as
      HASH, then the sort key as RANGE when there is one. */
  function KeySchemaOf(partitionKey: string, sortKey: Option<string>): seq<KeySchemaElement> {
    [KeySchemaElement(partitionKey, Hash)] + if HasSortKey(sortKey) then [KeySchemaElement(sortKey.value, Range)] else []
  }

  /** The attribute definitions it sends: one string attribute per key. */
  function AttributeDefinitionsOf(partitionKey: string, sortKey: Option<string>): seq<AttributeDefinition> {
    [AttributeDefinition(partitionKey, "S")] + if HasSortKey(sortKey) then [AttributeDefinition(sortKey.value, "S")] else []
  }

  /** The key-schema building of `create_table_on_demand`. */
  method BuildKeySchema(partitionKey: string, sortKey: Option<string>)
    returns (keySchema: seq<KeySchemaElement>, attributeDefinitions: seq<AttributeDefinition>)
    ensures |keySchema| >= 1 && keySchema[0] == KeySchemaElement(partitionKey, Hash)
    ensures |keySchema| == (if HasSortKey(sortKey) then 2 else 1)
    ensures HasSortKey(sortKey) ==> keySchema[1] == KeySchemaElement(sortKey.value, Range)
    ensures |attributeDefinitions| == |keySchema|
    ensures forall i :: 0 <= i < |keySchema| ==>
      attributeDefinitions[i] == AttributeDefinition(keySchema[i].attributeName, "S")
    ensures keySchema == KeySchemaOf(partitionKey, sortKey)
    ensures attributeDefinitions == AttributeDefinitionsOf(partitionKey, sortKey)
  {
    keySchema := [KeySchemaElement(partitionKey, Hash)];
    attributeDefinitions := [AttributeDefinition(partitionKey, "S")];
    if HasSortKey(sortKey) {
      keySchema := keySchema + [KeySchemaElement(sortKey.value, Range)];
      attributeDefinitions := attributeDefinitions + [AttributeDefinition(sortKey.value, "S")];
    }
  }

  /** The request `create_table_on_demand` sends for a table. */
  function CreateRequest(region: string, table: TableSpec): Request {
    CreateTable(region, table.name, KeySchemaOf(table.partitionKey, table.sortKey),
                AttributeDefinitionsOf(table.partitionKey, table.sortKey), "PAY_PER_REQUEST")
  }

  /** The requests of one call of `create_tables_on_demand`. */
  function CreateRequests(region: string, tables: seq<TableSpec>): (rs: seq<Request>)
    ensures |rs| == |tables|
    ensures forall i :: 0 <= i < |tables| ==> rs[i] == CreateRequest(region, tables[i])
  {
    if tables == [] then []
    else CreateRequests(region, tables[..|tables| - 1]) + [CreateRequest(region, tables[|tables| - 1])]
  }

  /** The requests of one call of `setup_fault_tolerance`. */
  function PitrRequests(region: string, tables: seq<string>): (rs: seq<Request>)
    ensures |rs| == |tables|
    ensures forall i :: 0 <= i < |tables| ==> rs[i] == EnablePointInTimeRecovery(region, tables[i])
  {
    if tables == [] then []
    else PitrRequests(region, tables[..|tables| - 1]) + [EnablePointInTimeRecovery(region, tables[|tables| - 1])]
  }

  /** The requests of one iteration of `main`: create, then enable recovery. */
  function RegionRequests(region: string): seq<Request> {
    CreateRequests(region, DataModelTables) + PitrRequests(region, PitrTables)
  }

  /** The requests of `main` over the regions in `regions`. */
  function SetupRequests(regions: seq<string>): seq<Request> {
    if regions == [] then []
    else SetupRequests(regions[..|regions| - 1]) + RegionRequests(regions[|regions| - 1])
  }

  /** The requests in a log of attempts. */
  function Requests(attempts: seq<Attempt>): (rs: seq<Request>)
    ensures |rs| == |attempts|
    ensures forall i :: 0 <= i < |attempts| ==> rs[i] == attempts[i].request
  {
    if attempts == [] then [] else Requests(attempts[..|attempts| - 1]) + [attempts[|attempts| - 1].request]
  }

  lemma RequestsAppend(a: seq<Attempt>, b: seq<Attempt>)
    ensures Requests(a + b) == Requests(a) + Requests(b)
  {
  }

  /** The DynamoDB service as the script sees it: the attempts so far, and
      which requests it accepts. */
  class Service {
    var attempts: seq<Attempt>
    const accepts: Request -> bool

    constructor (accepts: Request -> bool)
      ensures attempts == [] && this.accepts == accepts
    {
      attempts := [];
      this.accepts := accepts;
    }

    /** Sends one request; a rejection raises in the script and is caught
        there, so it only shows in the log. */
    method Send(request: Request)
      modifies this
      ensures attempts == old(attempts) + [Attempt(request, accepts(request))]
    {
      attempts := attempts + [Attempt(request, accepts(request))];
    }
  }

  /** `create_table_on_demand`. */
  method CreateTableOnDemand(service: Service, region: string, table: TableSpec)
    modifies service
    ensures Requests(service.attempts) == Requests(old(service.attempts)) + [CreateRequest(region, table)]
  {
    var keySchema, attributeDefinitions := BuildKeySchema(table.partitionKey, table.sortKey);
    service.Send(CreateTable(region, table.name, keySchema, attributeDefinitions, "PAY_PER_REQUEST"));
    RequestsAppend(old(service.attempts), [service.attempts[|service.attempts| - 1]]);
  }

  /** `create_tables_on_demand`: the four tables, in order. */
  method CreateTablesOnDemand(service: Service, region: string)
    modifies service
    ensures Requests(service.attempts) == Requests(old(service.attempts)) + CreateRequests(region, DataModelTables)
  {
    CreateTablesIn(service, region, DataModelTables);
  }

  /** The loop of `create_tables_on_demand` over a list of tables. */
  method CreateTablesIn(service: Service, region: string, tables: seq<TableSpec>)
    modifies service
    ensures Requests(service.attempts) == Requests(old(service.attempts)) + CreateRequests(region, tables)
  {
    for i := 0 to |tables|
      invariant Requests(service.attempts) == Requests(old(service.attempts)) + CreateRequests(region, tables[..i])
    {
      assert tables[..i + 1][..i] == tables[..i];
      CreateTableOnDemand(service, region, tables[i]);
    }
    assert tables[..|tables|] == tables;
  }

  /** `enable_point_in_time_recovery`. */
  method EnablePitr(service: Service, region: string, tableName: string)
    modifies service
    ensures Requests(service.attempts) == Requests(old(service.attempts)) + [EnablePointInTimeRecovery(region, tableName)]
  {
    service.Send(EnablePointInTimeRecovery(region, tableName));
    RequestsAppend(old(service.attempts), [service.attempts[|service.attempts| - 1]]);
  }

  /** `setup_fault_tolerance`: recovery on the four tables, in order. */
  method SetupFaultTolerance(service: Service, region: string)
    modifies service
    ensures Requests(service.attempts) == Requests(old(service.attempts)) + PitrRequests(region, PitrTables)
  {
    EnablePitrIn(service, region, PitrTables);
  }

  /** The loop of `setup_fault_tolerance` over a list of table names. */
  method EnablePitrIn(service: Service, region: string, tableNames: seq<string>)
    modifies service
    ensures Requests(service.attempts) == Requests(old(service.attempts)) + PitrRequests(region, tableNames)
  {
    for i := 0 to |tableNames|
      invariant Requests(service.attempts) == Requests(old(service.attempts)) + PitrRequests(region, tableNames[..i])
    {
      assert tableNames[..i + 1][..i] == tableNames[..i];
      EnablePitr(service, region, tableNames[i]);
    }
    assert tableNames[..|tableNames|] == tableNames;
  }

  /** One turn of the loop of `main`: the creations, then the recovery
      requests, extend the log by one region's requests. */
  lemma SetupRequestsStep(base: seq<Request>, regions: seq<string>, i: nat, created: seq<Request>, after: seq<Request>)
    requires i < |regions|
    requires created == base + SetupRequests(regions[..i]) + CreateRequests(regions[i], DataModelTables)
    requires after == created + PitrRequests(regions[i], PitrTables)
    ensures after == base + SetupRequests(regions[..i + 1])
  {
    assert regions[..i + 1][..i] == regions[..i];
    assert SetupRequests(regions[..i + 1]) == SetupRequests(regions[..i]) + RegionRequests(regions[i]);
  }

  /** `main`: for each region in order, create the tables, then enable
      recovery on them. What the service answers never changes the requests. */
  method SetupAllRegions(service: Service)
    modifies service
    ensures Requests(service.attempts) == Requests(old(service.attempts)) + SetupRequests(SetupRegions)
  {
    SetupRegionsIn(service, SetupRegions);
  }

  /** The loop of `main` over a list of regions. */
  method SetupRegionsIn(service: Service, regions: seq<string>)
    modifies service
    ensures Requests(service.attempts) == Requests(old(service.attempts)) + SetupRequests(regions)
  {
    for i := 0 to |regions|
      invariant Requests(service.attempts) == Requests(old(service.attempts)) + SetupRequests(regions[..i])
    {
      CreateTablesOnDemand(service, regions[i]);
      ghost var created := Requests(service.attempts);
      SetupFaultTolerance(service, regions[i]);
      SetupRequestsStep(Requests(old(service.attempts)), regions, i, created, Requests(service.attempts));
    }
    assert regions[..|regions|] == regions;
  }

  /** Every data-model table has a two-part key: a HASH partition key and a
      RANGE sort key, both declared as string attributes. */
  lemma DataModelKeys(region: string, i: nat)
    requires i < |DataModelTables|
    ensures var r := CreateRequest(region, DataModelTables[i]);
      && r.keySchema == [KeySchemaElement(DataModelTables[i].partitionKey, Hash),
                         KeySchemaElement(DataModelTables[i].sortKey.value, Range)]
      && r.attributeDefinitions == [AttributeDefinition(DataModelTables[i].partitionKey, "S"),
                                    AttributeDefinition(DataModelTables[i].sortKey.value, "S")]
  {
  }

  /** Recovery is enabled on exactly the tables that were created, in the
      same order. */
  lemma PitrMatchesCreated()
    ensures |PitrTables| == |DataModelTables|
    ensures forall i :: 0 <= i < |PitrTables| ==> PitrTables[i] == DataModelTables[i].name
  {
  }

  /** Each region gets its four creations first, then its four recovery
      requests; regions follow one another in list order. */
  lemma {:induction false} SetupRequestsLayout(regions: seq<string>, k: nat, j: nat)
    requires k < |regions| && j < 8
    ensures |SetupRequests(regions)| == 8 * |regions|
    ensures SetupRequests(regions)[8 * k + j]
         == if j < 4 then CreateRequest(regions[k], DataModelTables[j]) else EnablePointInTimeRecovery(regions[k], PitrTables[j - 4])
  {
    var init := regions[..|regions| - 1];
    if k < |regions| - 1 {
      SetupRequestsLayout(init, k, j);
    } else {
      if init != [] {
        SetupRequestsLayout(init, 0, 0);
      }
    }
  }
}
