/** The static results table of the dashboard (`performance_data`): for
    each database, region and query type, the eight measured metrics and the
    recommendations the query returned, in the order stored. */
module PerformanceData {

  import opened Values
  import opened Dashboard

  const Databases: seq<string> := ["MongoDB", "DynamoDB", "ElasticSearch"]
  const Regions: seq<string> := ["Asia", "Europe", "North America", "South America"]
  const QueryTypes: seq<string> := ["Local", "Global"]

  /** The eight metric keys every entry stores. */
  const MetricKeys: seq<string> := ["total_execution_time", "throughput", "avg_response_time", "min_response_time", "max_response_time", "response_time_std_deviation", "cpu_utilization_increase", "memory_utilization_increase"]

  const MongoDBAsiaLocal: Entry := Entry(
    map[
      "total_execution_time" := 704.64,
      "throughput" := 283.83,
      "avg_response_time" := 67.91,
      "min_response_time" := 23.71,
      "max_response_time" := 229.2,
      "response_time_std_deviation" := 40.51,
      "cpu_utilization_increase" := 70.7,
      "memory_utilization_increase" := 0.0],
    [
      Rec("Series west issue.", "movie", 9951, 3206),
      Rec("Explain power experience perhaps.", "movie", 9813, 1412),
      Rec("Just order reduce.", "webseries", 9764, 4649),
      Rec("Music management expert.", "movie", 9641, 3475),
      Rec("Myself film.", "webseries", 9506, 808),
      Rec("Environmental owner.", "documentary", 9296, 4481),
      Rec("Fall face along.", "movie", 9270, 4944),
      Rec("Pick skin.", "webseries", 9233, 850),
      Rec("Up physical.", "movie", 9128, 815),
      Rec("Authority suddenly address too.", "movie", 9116, 2175)])

  const MongoDBAsiaGlobal: Entry := Entry(
    map[
      "total_execution_time" := 2236.44,
      "throughput" := 447.14,
      "avg_response_time" := 121.35,
      "min_response_time" := 5.48,
      "max_response_time" := 586.15,
      "response_time_std_deviation" := 114.07,
      "cpu_utilization_increase" := -0.9,
      "memory_utilization_increase" := 0.1],
    [
      Rec("Rise beat central democratic.", "webseries", 33744, 14824),
      Rec("Condition.", "webseries", 33250, 15218),
      Rec("Fish that.", "movie", 32268, 9707),
      Rec("Chance.", "webseries", 31944, 9094),
      Rec("Family.", "movie", 31873, 4956)])

  const MongoDBEuropeLocal: Entry := Entry(
    map[
      "total_execution_time" := 577.03,
      "throughput" := 346.6,
      "avg_response_time" := 54.55,
      "min_response_time" := 22.68,
      "max_response_time" := 156.18,
      "response_time_std_deviation" := 26.19,
      "cpu_utilization_increase" := 61.4,
      "memory_utilization_increase" := 0.1],
    [
      Rec("Party TV conference.", "documentary", 9986, 3008),
      Rec("Community ready.", "documentary", 9963, 2111),
      Rec("Think instead.", "webseries", 9918, 1588),
      Rec("Environmental owner.", "documentary", 9890, 2000),
      Rec("Might local.", "webseries", 9732, 1489),
      Rec("Authority suddenly address too.", "movie", 9603, 4065),
      Rec("Chance.", "webseries", 9593, 2545),
      Rec("Week control everything.", "documentary", 9463, 4167),
      Rec("Least bank give.", "documentary", 9338, 2925),
      Rec("Recently but check six.", "webseries", 9301, 4888)])

  const MongoDBEuropeGlobal: Entry := Entry(
    map[
      "total_execution_time" := 1949.38,
      "throughput" := 512.98,
      "avg_response_time" := 148.48,
      "min_response_time" := 11.75,
      "max_response_time" := 730.78,
      "response_time_std_deviation" := 153.41,
      "cpu_utilization_increase" := 90.7,
      "memory_utilization_increase" := 0.1],
    [
      Rec("Rise beat central democratic.", "webseries", 33744, 14824),
      Rec("Condition.", "webseries", 33250, 15218),
      Rec("Fish that.", "movie", 32268, 9707),
      Rec("Chance.", "webseries", 31944, 9094),
      Rec("Family.", "movie", 31873, 4956)])

  const MongoDBNorthAmericaLocal: Entry := Entry(
    map[
      "total_execution_time" := 583.57,
      "throughput" := 342.72,
      "avg_response_time" := 56.44,
      "min_response_time" := 12.58,
      "max_response_time" := 162.56,
      "response_time_std_deviation" := 26.24,
      "cpu_utilization_increase" := 48.7,
      "memory_utilization_increase" := 0.1],
    [
      Rec("Leader head.", "documentary", 9962, 4904),
      Rec("Nation item.", "documentary", 9951, 1947),
      Rec("Hundred shoulder might.", "documentary", 9935, 749),
      Rec("Amount public.", "webseries", 9771, 2136),
      Rec("Tough hear.", "documentary", 9745, 4604),
      Rec("Wear mind.", "webseries", 9669, 1907),
      Rec("World four decide a.", "movie", 9646, 2400),
      Rec("Short price officer.", "movie", 9521, 2943),
      Rec("Note right.", "documentary", 9429, 2636),
      Rec("Rise beat central democratic.", "webseries", 9324, 2806)])

  const MongoDBNorthAmericaGlobal: Entry := Entry(
    map[
      "total_execution_time" := 2450.97,
      "throughput" := 408.0,
      "avg_response_time" := 175.25,
      "min_response_time" := 14.73,
      "max_response_time" := 642.87,
      "response_time_std_deviation" := 114.69,
      "cpu_utilization_increase" := 95.6,
      "memory_utilization_increase" := 0.3],
    [
      Rec("Rise beat central democratic.", "webseries", 33744, 14824),
      Rec("Condition.", "webseries", 33250, 15218),
      Rec("Fish that.", "movie", 32268, 9707),
      Rec("Chance.", "webseries", 31944, 9094),
      Rec("Family.", "movie", 31873, 4956)])

  const MongoDBSouthAmericaLocal: Entry := Entry(
    map[
      "total_execution_time" := 673.04,
      "throughput" := 297.16,
      "avg_response_time" := 64.08,
      "min_response_time" := 20.7,
      "max_response_time" := 307.35,
      "response_time_std_deviation" := 41.34,
      "cpu_utilization_increase" := 86.9,
      "memory_utilization_increase" := 0.0],
    [
      Rec("Chance.", "webseries", 9827, 1359),
      Rec("Firm skin often.", "movie", 9794, 4095),
      Rec("Head first cost.", "webseries", 9483, 677),
      Rec("Condition.", "webseries", 9466, 4483),
      Rec("Deep different.", "webseries", 9382, 3849),
      Rec("Term save apply.", "movie", 9293, 3751),
      Rec("Final stuff.", "movie", 9231, 603),
      Rec("Member rich network.", "webseries", 9011, 1033),
      Rec("Reveal try determine.", "movie", 8926, 4365),
      Rec("Interest beautiful value.", "movie", 8812, 2408)])

  const MongoDBSouthAmericaGlobal: Entry := Entry(
    map[
      "total_execution_time" := 2042.63,
      "throughput" := 489.56,
      "avg_response_time" := 140.64,
      "min_response_time" := 5.31,
      "max_response_time" := 471.54,
      "response_time_std_deviation" := 153.41,
      "cpu_utilization_increase" := 87.8,
      "memory_utilization_increase" := 0.2],
    [
      Rec("Rise beat central democratic.", "webseries", 33744, 14824),
      Rec("Condition.", "webseries", 33250, 15218),
      Rec("Fish that.", "movie", 32268, 9707),
      Rec("Chance.", "webseries", 31944, 9094),
      Rec("Family.", "movie", 31873, 4956)])

  const DynamoDBAsiaLocal: Entry := Entry(
    map[
      "total_execution_time" := 4670.14,
      "throughput" := 42.83,
      "avg_response_time" := 456.54,
      "min_response_time" := 269.48,
      "max_response_time" := 1696.84,
      "response_time_std_deviation" := 406.37,
      "cpu_utilization_increase" := 4.6,
      "memory_utilization_increase" := 0.1],
    [
      Rec("Series west issue.", "movie", 9951, 3206),
      Rec("Explain power experience perhaps.", "movie", 9813, 1412),
      Rec("Just order reduce.", "webseries", 9764, 4649),
      Rec("Music management expert.", "movie", 9641, 3475),
      Rec("Myself film.", "webseries", 9506, 808),
      Rec("Environmental owner.", "documentary", 9296, 4481),
      Rec("Fall face along.", "movie", 9270, 4944),
      Rec("Pick skin.", "webseries", 9233, 850),
      Rec("Up physical.", "movie", 9128, 815),
      Rec("Authority suddenly address too.", "movie", 9116, 2175)])

  const DynamoDBAsiaGlobal: Entry := Entry(
    map[
      "total_execution_time" := 17351.12,
      "throughput" := 57.63,
      "avg_response_time" := 1327.17,
      "min_response_time" := 716.43,
      "max_response_time" := 11835.05,
      "response_time_std_deviation" := 935.47,
      "cpu_utilization_increase" := 16.1,
      "memory_utilization_increase" := 0.5],
    [
      Rec("Rise beat central democratic.", "webseries", 33744, 14824),
      Rec("Condition.", "webseries", 33250, 15218),
      Rec("Fish that.", "movie", 32268, 9707),
      Rec("Chance.", "webseries", 31944, 9094),
      Rec("Family.", "movie", 31873, 4956)])

  const DynamoDBEuropeLocal: Entry := Entry(
    map[
      "total_execution_time" := 4763.36,
      "throughput" := 41.99,
      "avg_response_time" := 328.07,
      "min_response_time" := 155.57,
      "max_response_time" := 4754.75,
      "response_time_std_deviation" := 490.3,
      "cpu_utilization_increase" := 8.8,
      "memory_utilization_increase" := -0.9],
    [
      Rec("Party TV conference.", "documentary", 9986, 3008),
      Rec("Community ready.", "documentary", 9963, 2111),
      Rec("Think instead.", "webseries", 9918, 1588),
      Rec("Environmental owner.", "documentary", 9890, 2000),
      Rec("Might local.", "webseries", 9732, 1489),
      Rec("Authority suddenly address too.", "movie", 9603, 4065),
      Rec("Chance.", "webseries", 9593, 2545),
      Rec("Week control everything.", "documentary", 9463, 4167),
      Rec("Least bank give.", "documentary", 9338, 2925),
      Rec("Recently but check six.", "webseries", 9301, 4888)])

  const DynamoDBEuropeGlobal: Entry := Entry(
    map[
      "total_execution_time" := 17351.12,
      "throughput" := 57.63,
      "avg_response_time" := 1327.17,
      "min_response_time" := 716.43,
      "max_response_time" := 11835.05,
      "response_time_std_deviation" := 935.47,
      "cpu_utilization_increase" := 16.1,
      "memory_utilization_increase" := 0.5],
    [
      Rec("Rise beat central democratic.", "webseries", 33744, 14824),
      Rec("Condition.", "webseries", 33250, 15218),
      Rec("Fish that.", "movie", 32268, 9707),
      Rec("Chance.", "webseries", 31944, 9094),
      Rec("Family.", "movie", 31873, 4956)])

  const DynamoDBNorthAmericaLocal: Entry := Entry(
    map[
      "total_execution_time" := 1356.61,
      "throughput" := 147.43,
      "avg_response_time" := 127.91,
      "min_response_time" := 73.29,
      "max_response_time" := 490.19,
      "response_time_std_deviation" := 110.01,
      "cpu_utilization_increase" := -64.0,
      "memory_utilization_increase" := 0.6],
    [
      Rec("Leader head.", "documentary", 9962, 4904),
      Rec("Nation item.", "documentary", 9951, 1947),
      Rec("Hundred shoulder might.", "documentary", 9935, 749),
      Rec("Amount public.", "webseries", 9771, 2136),
      Rec("Tough hear.", "documentary", 9745, 4604),
      Rec("Wear mind.", "webseries", 9669, 1907),
      Rec("World four decide a.", "movie", 9646, 2400),
      Rec("Short price officer.", "movie", 9521, 2943),
      Rec("Note right.", "documentary", 9429, 2636),
      Rec("Rise beat central democratic.", "webseries", 9324, 2806)])

  const DynamoDBNorthAmericaGlobal: Entry := Entry(
    map[
      "total_execution_time" := 17351.12,
      "throughput" := 57.63,
      "avg_response_time" := 1327.17,
      "min_response_time" := 716.43,
      "max_response_time" := 11835.05,
      "response_time_std_deviation" := 935.47,
      "cpu_utilization_increase" := 16.1,
      "memory_utilization_increase" := 0.5],
    [
      Rec("Rise beat central democratic.", "webseries", 33744, 14824),
      Rec("Condition.", "webseries", 33250, 15218),
      Rec("Fish that.", "movie", 32268, 9707),
      Rec("Chance.", "webseries", 31944, 9094),
      Rec("Family.", "movie", 31873, 4956)])

  const DynamoDBSouthAmericaLocal: Entry := Entry(
    map[
      "total_execution_time" := 673.04,
      "throughput" := 297.16,
      "avg_response_time" := 64.08,
      "min_response_time" := 20.7,
      "max_response_time" := 307.35,
      "response_time_std_deviation" := 41.34,
      "cpu_utilization_increase" := 86.9,
      "memory_utilization_increase" := 0.0],
    [
      Rec("Chance.", "webseries", 9827, 1359),
      Rec("Firm skin often.", "movie", 9794, 4095),
      Rec("Head first cost.", "webseries", 9483, 677),
      Rec("Condition.", "webseries", 9466, 4483),
      Rec("Deep different.", "webseries", 9382, 3849),
      Rec("Term save apply.", "movie", 9293, 3751),
      Rec("Final stuff.", "movie", 9231, 603),
      Rec("Member rich network.", "webseries", 9011, 1033),
      Rec("Reveal try determine.", "movie", 8926, 4365),
      Rec("Interest beautiful value.", "movie", 8812, 2408)])

  const DynamoDBSouthAmericaGlobal: Entry := Entry(
    map[
      "total_execution_time" := 17351.12,
      "throughput" := 57.63,
      "avg_response_time" := 1327.17,
      "min_response_time" := 716.43,
      "max_response_time" := 11835.05,
      "response_time_std_deviation" := 935.47,
      "cpu_utilization_increase" := 16.1,
      "memory_utilization_increase" := 0.5],
    [
      Rec("Rise beat central democratic.", "webseries", 33744, 14824),
      Rec("Condition.", "webseries", 33250, 15218),
      Rec("Fish that.", "movie", 32268, 9707),
      Rec("Chance.", "webseries", 31944, 9094),
      Rec("Family.", "movie", 31873, 4956)])

  const ElasticSearchAsiaLocal: Entry := Entry(
    map[
      "total_execution_time" := 884.39,
      "throughput" := 226.14,
      "avg_response_time" := 884.39,
      "min_response_time" := 884.39,
      "max_response_time" := 884.39,
      "response_time_std_deviation" := 0.0,
      "cpu_utilization_increase" := 7.2,
      "memory_utilization_increase" := -0.2],
    [
      Rec("Series west issue.", "movie", 9951, 3206),
      Rec("Explain power experience perhaps.", "movie", 9813, 1412),
      Rec("Just order reduce.", "webseries", 9764, 4649),
      Rec("Music management expert.", "movie", 9641, 3475),
      Rec("Myself film.", "webseries", 9506, 808),
      Rec("Environmental owner.", "documentary", 9296, 4481),
      Rec("Fall face along.", "movie", 9270, 4944),
      Rec("Pick skin.", "webseries", 9233, 850),
      Rec("Up physical.", "movie", 9128, 815),
      Rec("Authority suddenly address too.", "movie", 9116, 2175)])

  const ElasticSearchAsiaGlobal: Entry := Entry(
    map[
      "total_execution_time" := 1604.27,
      "throughput" := 124.67,
      "avg_response_time" := 57.28,
      "min_response_time" := 9.1,
      "max_response_time" := 1233.34,
      "response_time_std_deviation" := 125.51,
      "cpu_utilization_increase" := -1.4,
      "memory_utilization_increase" := 1.9],
    [
      Rec("Rise beat central democratic.", "webseries", 33744, 14824),
      Rec("Condition.", "webseries", 33250, 15218),
      Rec("Fish that.", "movie", 32268, 9707),
      Rec("Chance.", "webseries", 31944, 9094),
      Rec("Family.", "movie", 31873, 4956)])

  const ElasticSearchEuropeLocal: Entry := Entry(
    map[
      "total_execution_time" := 744.27,
      "throughput" := 268.72,
      "avg_response_time" := 744.27,
      "min_response_time" := 744.27,
      "max_response_time" := 744.27,
      "response_time_std_deviation" := 0.0,
      "cpu_utilization_increase" := -0.6,
      "memory_utilization_increase" := 0.9],
    [
      Rec("Party TV conference.", "documentary", 9986, 3008),
      Rec("Community ready.", "documentary", 9963, 2111),
      Rec("Think instead.", "webseries", 9918, 1588),
      Rec("Environmental owner.", "documentary", 9890, 2000),
      Rec("Might local.", "webseries", 9732, 1489),
      Rec("Authority suddenly address too.", "movie", 9603, 4065),
      Rec("Chance.", "webseries", 9593, 2545),
      Rec("Week control everything.", "documentary", 9463, 4167),
      Rec("Least bank give.", "documentary", 9338, 2925),
      Rec("Recently but check six.", "webseries", 9301, 4888)])

  const ElasticSearchEuropeGlobal: Entry := Entry(
    map[
      "total_execution_time" := 1604.27,
      "throughput" := 124.67,
      "avg_response_time" := 57.28,
      "min_response_time" := 9.1,
      "max_response_time" := 1233.34,
      "response_time_std_deviation" := 125.51,
      "cpu_utilization_increase" := -1.4,
      "memory_utilization_increase" := 1.9],
    [
      Rec("Rise beat central democratic.", "webseries", 33744, 14824),
      Rec("Condition.", "webseries", 33250, 15218),
      Rec("Fish that.", "movie", 32268, 9707),
      Rec("Chance.", "webseries", 31944, 9094),
      Rec("Family.", "movie", 31873, 4956)])

  const ElasticSearchNorthAmericaLocal: Entry := Entry(
    map[
      "total_execution_time" := 613.27,
      "throughput" := 326.12,
      "avg_response_time" := 613.27,
      "min_response_time" := 613.27,
      "max_response_time" := 613.27,
      "response_time_std_deviation" := 0.0,
      "cpu_utilization_increase" := 9.5,
      "memory_utilization_increase" := 1.4],
    [
      Rec("Leader head.", "documentary", 9962, 4904),
      Rec("Nation item.", "documentary", 9951, 1947),
      Rec("Hundred shoulder might.", "documentary", 9935, 749),
      Rec("Amount public.", "webseries", 9771, 2136),
      Rec("Tough hear.", "documentary", 9745, 4604),
      Rec("Wear mind.", "webseries", 9669, 1907),
      Rec("World four decide a.", "movie", 9646, 2400),
      Rec("Short price officer.", "movie", 9521, 2943),
      Rec("Note right.", "documentary", 9429, 2636),
      Rec("Rise beat central democratic.", "webseries", 9324, 2806)])

  const ElasticSearchNorthAmericaGlobal: Entry := Entry(
    map[
      "total_execution_time" := 1604.27,
      "throughput" := 124.67,
      "avg_response_time" := 57.28,
      "min_response_time" := 9.1,
      "max_response_time" := 1233.34,
      "response_time_std_deviation" := 125.51,
      "cpu_utilization_increase" := -1.4,
      "memory_utilization_increase" := 1.9],
    [
      Rec("Rise beat central democratic.", "webseries", 33744, 14824),
      Rec("Condition.", "webseries", 33250, 15218),
      Rec("Fish that.", "movie", 32268, 9707),
      Rec("Chance.", "webseries", 31944, 9094),
      Rec("Family.", "movie", 31873, 4956)])

  const ElasticSearchSouthAmericaLocal: Entry := Entry(
    map[
      "total_execution_time" := 784.24,
      "throughput" := 255.02,
      "avg_response_time" := 784.24,
      "min_response_time" := 784.24,
      "max_response_time" := 784.24,
      "response_time_std_deviation" := 0.0,
      "cpu_utilization_increase" := 0.9,
      "memory_utilization_increase" := 0.8],
    [
      Rec("Chance.", "webseries", 9827, 1359),
      Rec("Firm skin often.", "movie", 9794, 4095),
      Rec("Head first cost.", "webseries", 9483, 677),
      Rec("Condition.", "webseries", 9466, 4483),
      Rec("Deep different.", "webseries", 9382, 3849),
      Rec("Term save apply.", "movie", 9293, 3751),
      Rec("Final stuff.", "movie", 9231, 603),
      Rec("Member rich network.", "webseries", 9011, 1033),
      Rec("Reveal try determine.", "movie", 8926, 4365),
      Rec("Interest beautiful value.", "movie", 8812, 2408)])

  const ElasticSearchSouthAmericaGlobal: Entry := Entry(
    map[
      "total_execution_time" := 1604.27,
      "throughput" := 124.67,
      "avg_response_time" := 57.28,
      "min_response_time" := 9.1,
      "max_response_time" := 1233.34,
      "response_time_std_deviation" := 125.51,
      "cpu_utilization_increase" := -1.4,
      "memory_utilization_increase" := 1.9],
    [
      Rec("Rise beat central democratic.", "webseries", 33744, 14824),
      Rec("Condition.", "webseries", 33250, 15218),
      Rec("Fish that.", "movie", 32268, 9707),
      Rec("Chance.", "webseries", 31944, 9094),
      Rec("Family.", "movie", 31873, 4956)])

  const MongoDBAsia: map<string, Entry> := map["Local" := MongoDBAsiaLocal, "Global" := MongoDBAsiaGlobal]

  const MongoDBEurope: map<string, Entry> := map["Local" := MongoDBEuropeLocal, "Global" := MongoDBEuropeGlobal]

  const MongoDBNorthAmerica: map<string, Entry> := map["Local" := MongoDBNorthAmericaLocal, "Global" := MongoDBNorthAmericaGlobal]

  const MongoDBSouthAmerica: map<string, Entry> := map["Local" := MongoDBSouthAmericaLocal, "Global" := MongoDBSouthAmericaGlobal]

  const MongoDBResults: map<string, map<string, Entry>> := map[
    "Asia" := MongoDBAsia,
    "Europe" := MongoDBEurope,
    "North America" := MongoDBNorthAmerica,
    "South America" := MongoDBSouthAmerica]

  const DynamoDBAsia: map<string, Entry> := map["Local" := DynamoDBAsiaLocal, "Global" := DynamoDBAsiaGlobal]

  const DynamoDBEurope: map<string, Entry> := map["Local" := DynamoDBEuropeLocal, "Global" := DynamoDBEuropeGlobal]

  const DynamoDBNorthAmerica: map<string, Entry> := map["Local" := DynamoDBNorthAmericaLocal, "Global" := DynamoDBNorthAmericaGlobal]

  const DynamoDBSouthAmerica: map<string, Entry> := map["Local" := DynamoDBSouthAmericaLocal, "Global" := DynamoDBSouthAmericaGlobal]

  const DynamoDBResults: map<string, map<string, Entry>> := map[
    "Asia" := DynamoDBAsia,
    "Europe" := DynamoDBEurope,
    "North America" := DynamoDBNorthAmerica,
    "South America" := DynamoDBSouthAmerica]

  const ElasticSearchAsia: map<string, Entry> := map["Local" := ElasticSearchAsiaLocal, "Global" := ElasticSearchAsiaGlobal]

  const ElasticSearchEurope: map<string, Entry> := map["Local" := ElasticSearchEuropeLocal, "Global" := ElasticSearchEuropeGlobal]

  const ElasticSearchNorthAmerica: map<string, Entry> := map["Local" := ElasticSearchNorthAmericaLocal, "Global" := ElasticSearchNorthAmericaGlobal]

  const ElasticSearchSouthAmerica: map<string, Entry> := map["Local" := ElasticSearchSouthAmericaLocal, "Global" := ElasticSearchSouthAmericaGlobal]

  const ElasticSearchResults: map<string, map<string, Entry>> := map[
    "Asia" := ElasticSearchAsia,
    "Europe" := ElasticSearchEurope,
    "North America" := ElasticSearchNorthAmerica,
    "South America" := ElasticSearchSouthAmerica]

  /** `performance_data`. */
  const Table: Dashboard.Table := map["MongoDB" := MongoDBResults, "DynamoDB" := DynamoDBResults, "ElasticSearch" := ElasticSearchResults]

  /** The stored recommendations never gain views further down the list. */
  predicate ViewsDescending(recs: seq<Rec>) {
    forall i :: 0 < i < |recs| ==> recs[i - 1].views >= recs[i].views
  }

  /** What every stored entry satisfies: the eight metric keys and no
      other, the number of recommendations the query type returns, and
      those in non-increasing order of views. */
  predicate EntryOk(e: Entry, size: nat) {
    && (forall k :: k in e.metrics ==> k in MetricKeys)
    && (forall k :: k in MetricKeys ==> k in e.metrics)
    && |e.recommendations| == size
    && ViewsDescending(e.recommendations)
  }

  /** Neighbour by neighbour order gives the order of every pair. */
  lemma {:induction false} ViewsOrdered(recs: seq<Rec>, i: nat, j: nat)
    requires ViewsDescending(recs) && i <= j < |recs|
    ensures recs[i].views >= recs[j].views
    decreases j - i
  {
    if i < j {
      ViewsOrdered(recs, i + 1, j);
    }
  }

  /** The number of recommendations a query type stores. */
  function Size(queryType: string): nat {
    if queryType == "Local" then 10 else 5
  }

  lemma MongoDBAsiaLocalOk()
    ensures EntryOk(MongoDBAsiaLocal, 10)
  {
  }

  lemma MongoDBAsiaGlobalOk()
    ensures EntryOk(MongoDBAsiaGlobal, 5)
  {
  }

  lemma MongoDBEuropeLocalOk()
    ensures EntryOk(MongoDBEuropeLocal, 10)
  {
  }

  lemma MongoDBEuropeGlobalOk()
    ensures EntryOk(MongoDBEuropeGlobal, 5)
  {
  }

  lemma MongoDBNorthAmericaLocalOk()
    ensures EntryOk(MongoDBNorthAmericaLocal, 10)
  {
  }

  lemma MongoDBNorthAmericaGlobalOk()
    ensures EntryOk(MongoDBNorthAmericaGlobal, 5)
  {
  }

  lemma MongoDBSouthAmericaLocalOk()
    ensures EntryOk(MongoDBSouthAmericaLocal, 10)
  {
  }

  lemma MongoDBSouthAmericaGlobalOk()
    ensures EntryOk(MongoDBSouthAmericaGlobal, 5)
  {
  }

  lemma DynamoDBAsiaLocalOk()
    ensures EntryOk(DynamoDBAsiaLocal, 10)
  {
  }

  lemma DynamoDBAsiaGlobalOk()
    ensures EntryOk(DynamoDBAsiaGlobal, 5)
  {
  }

  lemma DynamoDBEuropeLocalOk()
    ensures EntryOk(DynamoDBEuropeLocal, 10)
  {
  }

  lemma DynamoDBEuropeGlobalOk()
    ensures EntryOk(DynamoDBEuropeGlobal, 5)
  {
  }

  lemma DynamoDBNorthAmericaLocalOk()
    ensures EntryOk(DynamoDBNorthAmericaLocal, 10)
  {
  }

  lemma DynamoDBNorthAmericaGlobalOk()
    ensures EntryOk(DynamoDBNorthAmericaGlobal, 5)
  {
  }

  lemma DynamoDBSouthAmericaLocalOk()
    ensures EntryOk(DynamoDBSouthAmericaLocal, 10)
  {
  }

  lemma DynamoDBSouthAmericaGlobalOk()
    ensures EntryOk(DynamoDBSouthAmericaGlobal, 5)
  {
  }

  lemma ElasticSearchAsiaLocalOk()
    ensures EntryOk(ElasticSearchAsiaLocal, 10)
  {
  }

  lemma ElasticSearchAsiaGlobalOk()
    ensures EntryOk(ElasticSearchAsiaGlobal, 5)
  {
  }

  lemma ElasticSearchEuropeLocalOk()
    ensures EntryOk(ElasticSearchEuropeLocal, 10)
  {
  }

  lemma ElasticSearchEuropeGlobalOk()
    ensures EntryOk(ElasticSearchEuropeGlobal, 5)
  {
  }

  lemma ElasticSearchNorthAmericaLocalOk()
    ensures EntryOk(ElasticSearchNorthAmericaLocal, 10)
  {
  }

  lemma ElasticSearchNorthAmericaGlobalOk()
    ensures EntryOk(ElasticSearchNorthAmericaGlobal, 5)
  {
  }

  lemma ElasticSearchSouthAmericaLocalOk()
    ensures EntryOk(ElasticSearchSouthAmericaLocal, 10)
  {
  }

  lemma ElasticSearchSouthAmericaGlobalOk()
    ensures EntryOk(ElasticSearchSouthAmericaGlobal, 5)
  {
  }

  lemma MongoDBAsiaOk(q: nat)
    requires q < |QueryTypes|
    ensures QueryTypes[q] in MongoDBAsia && EntryOk(MongoDBAsia[QueryTypes[q]], Size(QueryTypes[q]))
  {
    if q == 0 {
      MongoDBAsiaLocalOk();
    } else {
      MongoDBAsiaGlobalOk();
    }
  }

  lemma MongoDBEuropeOk(q: nat)
    requires q < |QueryTypes|
    ensures QueryTypes[q] in MongoDBEurope && EntryOk(MongoDBEurope[QueryTypes[q]], Size(QueryTypes[q]))
  {
    if q == 0 {
      MongoDBEuropeLocalOk();
    } else {
      MongoDBEuropeGlobalOk();
    }
  }

  lemma MongoDBNorthAmericaOk(q: nat)
    requires q < |QueryTypes|
    ensures QueryTypes[q] in MongoDBNorthAmerica && EntryOk(MongoDBNorthAmerica[QueryTypes[q]], Size(QueryTypes[q]))
  {
    if q == 0 {
      MongoDBNorthAmericaLocalOk();
    } else {
      MongoDBNorthAmericaGlobalOk();
    }
  }

  lemma MongoDBSouthAmericaOk(q: nat)
    requires q < |QueryTypes|
    ensures QueryTypes[q] in MongoDBSouthAmerica && EntryOk(MongoDBSouthAmerica[QueryTypes[q]], Size(QueryTypes[q]))
  {
    if q == 0 {
      MongoDBSouthAmericaLocalOk();
    } else {
      MongoDBSouthAmericaGlobalOk();
    }
  }

  lemma DynamoDBAsiaOk(q: nat)
    requires q < |QueryTypes|
    ensures QueryTypes[q] in DynamoDBAsia && EntryOk(DynamoDBAsia[QueryTypes[q]], Size(QueryTypes[q]))
  {
    if q == 0 {
      DynamoDBAsiaLocalOk();
    } else {
      DynamoDBAsiaGlobalOk();
    }
  }

  lemma DynamoDBEuropeOk(q: nat)
    requires q < |QueryTypes|
    ensures QueryTypes[q] in DynamoDBEurope && EntryOk(DynamoDBEurope[QueryTypes[q]], Size(QueryTypes[q]))
  {
    if q == 0 {
      DynamoDBEuropeLocalOk();
    } else {
      DynamoDBEuropeGlobalOk();
    }
  }

  lemma DynamoDBNorthAmericaOk(q: nat)
    requires q < |QueryTypes|
    ensures QueryTypes[q] in DynamoDBNorthAmerica && EntryOk(DynamoDBNorthAmerica[QueryTypes[q]], Size(QueryTypes[q]))
  {
    if q == 0 {
      DynamoDBNorthAmericaLocalOk();
    } else {
      DynamoDBNorthAmericaGlobalOk();
    }
  }

  lemma DynamoDBSouthAmericaOk(q: nat)
    requires q < |QueryTypes|
    ensures QueryTypes[q] in DynamoDBSouthAmerica && EntryOk(DynamoDBSouthAmerica[QueryTypes[q]], Size(QueryTypes[q]))
  {
    if q == 0 {
      DynamoDBSouthAmericaLocalOk();
    } else {
      DynamoDBSouthAmericaGlobalOk();
    }
  }

  lemma ElasticSearchAsiaOk(q: nat)
    requires q < |QueryTypes|
    ensures QueryTypes[q] in ElasticSearchAsia && EntryOk(ElasticSearchAsia[QueryTypes[q]], Size(QueryTypes[q]))
  {
    if q == 0 {
      ElasticSearchAsiaLocalOk();
    } else {
      ElasticSearchAsiaGlobalOk();
    }
  }

  lemma ElasticSearchEuropeOk(q: nat)
    requires q < |QueryTypes|
    ensures QueryTypes[q] in ElasticSearchEurope && EntryOk(ElasticSearchEurope[QueryTypes[q]], Size(QueryTypes[q]))
  {
    if q == 0 {
      ElasticSearchEuropeLocalOk();
    } else {
      ElasticSearchEuropeGlobalOk();
    }
  }

  lemma ElasticSearchNorthAmericaOk(q: nat)
    requires q < |QueryTypes|
    ensures QueryTypes[q] in ElasticSearchNorthAmerica && EntryOk(ElasticSearchNorthAmerica[QueryTypes[q]], Size(QueryTypes[q]))
  {
    if q == 0 {
      ElasticSearchNorthAmericaLocalOk();
    } else {
      ElasticSearchNorthAmericaGlobalOk();
    }
  }

  lemma ElasticSearchSouthAmericaOk(q: nat)
    requires q < |QueryTypes|
    ensures QueryTypes[q] in ElasticSearchSouthAmerica && EntryOk(ElasticSearchSouthAmerica[QueryTypes[q]], Size(QueryTypes[q]))
  {
    if q == 0 {
      ElasticSearchSouthAmericaLocalOk();
    } else {
      ElasticSearchSouthAmericaGlobalOk();
    }
  }

  lemma MongoDBComplete(r: nat, q: nat)
    requires r < |Regions| && q < |QueryTypes|
    ensures Regions[r] in MongoDBResults && QueryTypes[q] in MongoDBResults[Regions[r]]
    ensures EntryOk(MongoDBResults[Regions[r]][QueryTypes[q]], Size(QueryTypes[q]))
  {
    if r == 0 {
      MongoDBAsiaOk(q);
      assert MongoDBResults[Regions[r]] == MongoDBAsia;
    } else if r == 1 {
      MongoDBEuropeOk(q);
      assert MongoDBResults[Regions[r]] == MongoDBEurope;
    } else if r == 2 {
      MongoDBNorthAmericaOk(q);
      assert MongoDBResults[Regions[r]] == MongoDBNorthAmerica;
    } else {
      MongoDBSouthAmericaOk(q);
      assert MongoDBResults[Regions[r]] == MongoDBSouthAmerica;
    }
  }

  lemma DynamoDBComplete(r: nat, q: nat)
    requires r < |Regions| && q < |QueryTypes|
    ensures Regions[r] in DynamoDBResults && QueryTypes[q] in DynamoDBResults[Regions[r]]
    ensures EntryOk(DynamoDBResults[Regions[r]][QueryTypes[q]], Size(QueryTypes[q]))
  {
    if r == 0 {
      DynamoDBAsiaOk(q);
      assert DynamoDBResults[Regions[r]] == DynamoDBAsia;
    } else if r == 1 {
      DynamoDBEuropeOk(q);
      assert DynamoDBResults[Regions[r]] == DynamoDBEurope;
    } else if r == 2 {
      DynamoDBNorthAmericaOk(q);
      assert DynamoDBResults[Regions[r]] == DynamoDBNorthAmerica;
    } else {
      DynamoDBSouthAmericaOk(q);
      assert DynamoDBResults[Regions[r]] == DynamoDBSouthAmerica;
    }
  }

  lemma ElasticSearchComplete(r: nat, q: nat)
    requires r < |Regions| && q < |QueryTypes|
    ensures Regions[r] in ElasticSearchResults && QueryTypes[q] in ElasticSearchResults[Regions[r]]
    ensures EntryOk(ElasticSearchResults[Regions[r]][QueryTypes[q]], Size(QueryTypes[q]))
  {
    if r == 0 {
      ElasticSearchAsiaOk(q);
      assert ElasticSearchResults[Regions[r]] == ElasticSearchAsia;
    } else if r == 1 {
      ElasticSearchEuropeOk(q);
      assert ElasticSearchResults[Regions[r]] == ElasticSearchEurope;
    } else if r == 2 {
      ElasticSearchNorthAmericaOk(q);
      assert ElasticSearchResults[Regions[r]] == ElasticSearchNorthAmerica;
    } else {
      ElasticSearchSouthAmericaOk(q);
      assert ElasticSearchResults[Regions[r]] == ElasticSearchSouthAmerica;
    }
  }

  /** A lookup through one database's results map. */
  lemma LookupThrough(table: Dashboard.Table, database: string, results: map<string, map<string, Entry>>, region: string, queryType: string)
    requires database in table && table[database] == results
    requires region in results && queryType in results[region]
    ensures Lookup(table, database, region, queryType) == Some(results[region][queryType])
  {
  }

  /** The table stores MongoDB's results under its name. */
  lemma MongoDBInTable()
    ensures "MongoDB" in Table && Table["MongoDB"] == MongoDBResults
  {
  }

  /** The table stores DynamoDB's results under its name. */
  lemma DynamoDBInTable()
    ensures "DynamoDB" in Table && Table["DynamoDB"] == DynamoDBResults
  {
  }

  /** The table stores ElasticSearch's results under its name. */
  lemma ElasticSearchInTable()
    ensures "ElasticSearch" in Table && Table["ElasticSearch"] == ElasticSearchResults
  {
  }

  /** Every database, region and query type has an entry, and every entry
      is well formed. */
  lemma TableComplete(d: nat, r: nat, q: nat)
    requires d < |Databases| && r < |Regions| && q < |QueryTypes|
    ensures Lookup(Table, Databases[d], Regions[r], QueryTypes[q]).Some?
    ensures EntryOk(Lookup(Table, Databases[d], Regions[r], QueryTypes[q]).value, Size(QueryTypes[q]))
  {
    if d == 0 {
      MongoDBInTable();
      MongoDBComplete(r, q);
      LookupThrough(Table, Databases[d], MongoDBResults, Regions[r], QueryTypes[q]);
    } else if d == 1 {
      DynamoDBInTable();
      DynamoDBComplete(r, q);
      LookupThrough(Table, Databases[d], DynamoDBResults, Regions[r], QueryTypes[q]);
    } else {
      ElasticSearchInTable();
      ElasticSearchComplete(r, q);
      LookupThrough(Table, Databases[d], ElasticSearchResults, Regions[r], QueryTypes[q]);
    }
  }

  /** The five metrics the bar figure compares are among the stored ones. */
  lemma ComparedAreStored()
    ensures forall i :: 0 <= i < |MetricsToCompare| ==> MetricsToCompare[i] in MetricKeys
  {
  }

  /** A request naming a stored database, region and query type finds all
      five compared metrics, so `get_metrics` answers it without error. */
  lemma StoredRequestsHaveMetrics(database: string, region: string, queryType: string)
    requires database in Databases && region in Regions && queryType in QueryTypes
    ensures Lookup(Table, database, region, queryType).Some?
    ensures forall i :: 0 <= i < |MetricsToCompare| ==>
      MetricsToCompare[i] in Lookup(Table, database, region, queryType).value.metrics
  {
    var d :| 0 <= d < |Databases| && Databases[d] == database;
    var r :| 0 <= r < |Regions| && Regions[r] == region;
    var q :| 0 <= q < |QueryTypes| && QueryTypes[q] == queryType;
    TableComplete(d, r, q);
    ComparedAreStored();
  }
}
