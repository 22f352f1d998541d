/** The `/metrics/<database>/<region>/<query_type>` route of the dashboard:
    the `.get` chain into the stored results, the bar traces for five key
    metrics, and the one-line text of each stored recommendation. Plotly
    figures are reduced to their list of traces and Flask's `jsonify` to a
    response value. */
module Dashboard {

  import opened Values
  import opened Decimal

  /** A stored recommendation: 'Content Title', 'Content Type',
      'Total Views', 'Total Likes'. */
  datatype Rec = Rec(title: string, kind: string, views: int, likes: int)

  /** The stored results of one query: its metrics (floats, kept as opaque
      numbers) and its recommendations. */
  datatype Entry = Entry(metrics: map<string, real>, recommendations: seq<Rec>)

  /** `performance_data`: database, then region, then query type. */
  type Table = map<string, map<string, map<string, Entry>>>

  /** `performance_data.get(database, {}).get(region, {}).get(query_type, {})`;
      `None` is the empty dict the chain falls back to at the first missing
      key. */
  function Lookup(table: Table, database: string, region: string, queryType: string): (r: Option<Entry>)
    ensures r.Some? <==> database in table && region in table[database] && queryType in table[database][region]
    ensures r.Some? ==> r.value == table[database][region][queryType]
  {
    if database in table && region in table[database] && queryType in table[database][region] then
      Some(table[database][region][queryType])
    else None
  }

  /** `metrics_to_compare`. */
  const MetricsToCompare: seq<string> :=
    ["total_execution_time", "throughput", "avg_response_time", "cpu_utilization_increase", "memory_utilization_increase"]

  /** `colors`, paired with `metrics_to_compare` by `zip`. */
  const Colors: seq<string> := ["blue", "green", "red", "purple", "orange"]

  predicate IsUpper(c: char) { 'A' <= c <= 'Z' }
  predicate IsLower(c: char) { 'a' <= c <= 'z' }
  predicate IsLetter(c: char) { IsUpper(c) || IsLower(c) }

  function ToUpper(c: char): (u: char)
    ensures IsLower(c) ==> IsUpper(u)
    ensures !IsLower(c) ==> u == c
  {
    if IsLower(c) then (c as int - 'a' as int + 'A' as int) as char else c
  }

  function ToLower(c: char): (l: char)
    ensures IsUpper(c) ==> IsLower(l)
    ensures !IsUpper(c) ==> l == c
  {
    if IsUpper(c) then (c as int - 'A' as int + 'a' as int) as char else c
  }

  /** `s.replace('_', ' ')`. */
  function Underscores(s: string): (t: string)
    ensures |t| == |s|
    ensures forall i :: 0 <= i < |s| ==> t[i] == (if s[i] == '_' then ' ' else s[i])
  {
    seq(|s|, i requires 0 <= i < |s| => if s[i] == '_' then ' ' else s[i])
  }

  /** `s.title()` on ASCII text: a letter is upper case when it starts a
      word (nothing or a non-letter before it) and lower case otherwise. */
  function TitleCase(s: string): (t: string)
    ensures |t| == |s|
  {
    seq(|s|, i requires 0 <= i < |s| => if i == 0 || !IsLetter(s[i - 1]) then ToUpper(s[i]) else ToLower(s[i]))
  }

  /** The trace name: `metric.replace('_', ' ').title()`. */
  function DisplayName(metric: string): string {
    TitleCase(Underscores(metric))
  }

  /** A bar trace: one x label, one y value, a name and a colour. */
  datatype Trace = Trace(x: seq<string>, y: seq<real>, name: string, color: string)

  /** The trace for one metric. */
  function BarTrace(metrics: map<string, real>, metric: string, color: string): Trace
    requires metric in metrics
  {
    Trace([metric], [metrics[metric]], DisplayName(metric), color)
  }

  /** The `zip` loop adding one bar per metric: `metrics[metric]` raises
      KeyError at the first metric the dict lacks. */
  method BuildBarTraces(metrics: map<string, real>, names: seq<string>, colors: seq<string>)
    returns (r: Result<seq<Trace>>)
    ensures var n := if |names| < |colors| then |names| else |colors|;
      && (r.Ok? <==> forall i :: 0 <= i < n ==> names[i] in metrics)
      && (r.Ok? ==> |r.value| == n && forall i :: 0 <= i < n ==> (names[i] in metrics
            && r.value[i] == BarTrace(metrics, names[i], colors[i])))
      && (r.Err? ==> exists i :: (0 <= i < n && names[i] !in metrics && r.error == KeyError(names[i])
            && forall j :: 0 <= j < i ==> names[j] in metrics))
  {
    var n := if |names| < |colors| then |names| else |colors|;
    var traces: seq<Trace> := [];
    for i := 0 to n
      invariant |traces| == i
      invariant forall j :: 0 <= j < i ==> names[j] in metrics && traces[j] == BarTrace(metrics, names[j], colors[j])
    {
      if names[i] !in metrics {
        return Err(KeyError(names[i]));
      }
      traces := traces + [BarTrace(metrics, names[i], colors[i])];
    }
    return Ok(traces);
  }

  /** The text of one recommendation. */
  function FormatRecommendation(rec: Rec): string {
    "Title: " + rec.title + " | Type: " + rec.kind + " | Views: " + IntToString(rec.views)
      + " | Likes: " + IntToString(rec.likes)
  }

  /** The loop building `formatted_recommendations`. */
  method FormatRecommendations(recs: seq<Rec>) returns (texts: seq<string>)
    ensures |texts| == |recs|
    ensures forall i :: 0 <= i < |recs| ==> texts[i] == FormatRecommendation(recs[i])
  {
    texts := [];
    for i := 0 to |recs|
      invariant |texts| == i
      invariant forall j :: 0 <= j < i ==> texts[j] == FormatRecommendation(recs[j])
    {
      texts := texts + [FormatRecommendation(recs[i])];
    }
  }

  /** The JSON of a successful request. */
  datatype Reply = Reply(barTitle: string, barTraces: seq<Trace>, metrics: map<string, real>,
                         recommendations: seq<string>, rawRecommendations: seq<Rec>)

  /** A reply, or the `error` JSON with its status code. */
  datatype Response = Success(reply: Reply) | Failure(message: string, status: int)

  /** `f'Error processing request: {str(e)}'` for a KeyError, whose text is
      the key in quotes. */
  function KeyErrorMessage(key: string): string {
    "Error processing request: '" + key + "'"
  }

  /** The title of the bar figure. */
  function BarTitle(database: string, region: string, queryType: string): string {
    "Performance Metrics - " + database + " (" + region + ") - " + queryType + " Query"
  }

  /** `get_metrics(database, region, query_type)`. */
  method GetMetrics(table: Table, database: string, region: string, queryType: string) returns (response: Response)
    ensures Lookup(table, database, region, queryType).None? ==> response == Failure(KeyErrorMessage("metrics"), 500)
    ensures Lookup(table, database, region, queryType).Some? ==>
      var entry := Lookup(table, database, region, queryType).value;
      && (response.Success? <==> forall i :: 0 <= i < |MetricsToCompare| ==> MetricsToCompare[i] in entry.metrics)
      && (response.Failure? ==> response.status == 500 && exists i :: (0 <= i < |MetricsToCompare|
            && MetricsToCompare[i] !in entry.metrics && response.message == KeyErrorMessage(MetricsToCompare[i])
            && forall j :: 0 <= j < i ==> MetricsToCompare[j] in entry.metrics))
      && (response.Success? ==>
            && response.reply.barTitle == BarTitle(database, region, queryType)
            && response.reply.metrics == entry.metrics
            && response.reply.rawRecommendations == entry.recommendations
            && |response.reply.recommendations| == |entry.recommendations|
            && (forall i :: 0 <= i < |entry.recommendations| ==>
                  response.reply.recommendations[i] == FormatRecommendation(entry.recommendations[i]))
            && |response.reply.barTraces| == |MetricsToCompare|
            && forall i :: 0 <= i < |MetricsToCompare| ==>
                  response.reply.barTraces[i] == BarTrace(entry.metrics, MetricsToCompare[i], Colors[i]))
  {
    var data := Lookup(table, database, region, queryType);
    if data.None? {
      return Failure(KeyErrorMessage("metrics"), 500);
    }
    var entry := data.value;
    assert |MetricsToCompare| == |Colors| == 5;
    var traces := BuildBarTraces(entry.metrics, MetricsToCompare, Colors);
    if traces.Err? {
      return Failure(KeyErrorMessage(traces.error.key), 500);
    }
    var texts := FormatRecommendations(entry.recommendations);
    return Success(Reply(BarTitle(database, region, queryType), traces.value, entry.metrics,
                         texts, entry.recommendations));
  }

  /** `title()` treats the words of a line one by one: a word after a
      space starts with a capital, as at the start. */
  lemma TitleCaseJoin(a: string, b: string)
    ensures TitleCase(a + " " + b) == TitleCase(a) + " " + TitleCase(b)
  {
    var s := a + " " + b;
    var t := TitleCase(s);
    var u := TitleCase(a) + " " + TitleCase(b);
    forall i | 0 <= i < |t|
      ensures t[i] == u[i]
    {
      if i < |a| {
        assert u[i] == TitleCase(a)[i];
      } else if i > |a| {
        var j := i - |a| - 1;
        assert s[i] == b[j];
        assert u[i] == TitleCase(b)[j];
        if j > 0 {
          assert s[i - 1] == b[j - 1];
        }
      }
    }
  }

  /** A trace name spells its metric, with spaces for underscores and only
      the case of letters changed. */
  lemma DisplayNameSpelling(metric: string)
    ensures |DisplayName(metric)| == |metric|
    ensures forall i :: 0 <= i < |metric| ==>
      ToLower(DisplayName(metric)[i]) == ToLower(if metric[i] == '_' then ' ' else metric[i])
  {
    var s := Underscores(metric);
    forall i | 0 <= i < |metric|
      ensures ToLower(DisplayName(metric)[i]) == ToLower(s[i])
    {
      CaseFold(s[i]);
    }
  }

  lemma CaseFold(c: char)
    ensures ToLower(ToUpper(c)) == ToLower(c) && ToLower(ToLower(c)) == ToLower(c)
  {
  }

  // ---------------------------------------------------------------------
  // Reading a recommendation line back

  /** `s.split('|')`. */
  function SplitBar(s: string): (parts: seq<string>)
    ensures |parts| >= 1
  {
    if s == [] then [""]
    else
      var rest := SplitBar(s[1..]);
      if s[0] == '|' then [""] + rest else [[s[0]] + rest[0]] + rest[1..]
  }

  lemma {:induction false} SplitBarNone(s: string)
    requires '|' !in s
    ensures SplitBar(s) == [s]
  {
    if s != [] {
      SplitBarNone(s[1..]);
      assert [s[0]] + s[1..] == s;
    }
  }

  lemma {:induction false} SplitBarAppend(a: string, b: string)
    requires '|' !in a
    ensures SplitBar(a + "|" + b) == [a] + SplitBar(b)
  {
    if a == [] {
      assert a + "|" + b == "|" + b;
      assert ("|" + b)[1..] == b;
    } else {
      assert (a + "|" + b)[1..] == a[1..] + "|" + b;
      SplitBarAppend(a[1..], b);
      assert [a[0]] + a[1..] == a;
    }
  }

  /** The text of `s` between a prefix and a suffix, when it has both. */
  function Between(s: string, prefix: string, suffix: string): (r: Option<string>)
    ensures r.Some? ==> s == prefix + r.value + suffix
  {
    if |s| >= |prefix| + |suffix| && s[..|prefix|] == prefix && s[|s| - |suffix|..] == suffix then
      assert s == s[..|prefix|] + s[|prefix|..|s| - |suffix|] + s[|s| - |suffix|..];
      Some(s[|prefix|..|s| - |suffix|])
    else None
  }

  lemma BetweenOf(prefix: string, middle: string, suffix: string)
    ensures Between(prefix + middle + suffix, prefix, suffix) == Some(middle)
  {
    var s := prefix + middle + suffix;
    assert s[..|prefix|] == prefix;
    assert s[|s| - |suffix|..] == suffix;
    assert s[|prefix|..|s| - |suffix|] == middle;
  }

  /** Reads a recommendation line: four `|`-separated parts, each with its
      label, the numbers in decimal. */
  function ParseRecommendation(s: string): Option<Rec> {
    var parts := SplitBar(s);
    if |parts| != 4 then None
    else
      var title := Between(parts[0], "Title: ", " ");
      var kind := Between(parts[1], " Type: ", " ");
      var views := Between(parts[2], " Views: ", " ");
      var likes := Between(parts[3], " Likes: ", "");
      if title.None? || kind.None? || views.None? || likes.None? then None
      else
        var v := ParseInt(views.value);
        var l := ParseInt(likes.value);
        if v.None? || l.None? then None
        else Some(Rec(title.value, kind.value, v.value, l.value))
  }

  lemma NoBarInNumber(i: int)
    ensures '|' !in IntToString(i)
  {
    var s := IntToString(i);
    if i < 0 {
      assert s == "-" + NatToString(-i);
      assert forall j :: 1 <= j < |s| ==> s[j] == NatToString(-i)[j - 1];
    }
  }

  /** The four parts of a recommendation line. */
  function Parts(rec: Rec): seq<string> {
    ["Title: " + rec.title + " ", " Type: " + rec.kind + " ",
     " Views: " + IntToString(rec.views) + " ", " Likes: " + IntToString(rec.likes) + ""]
  }

  lemma NoBarIn(a: string, b: string, c: string)
    requires '|' !in a && '|' !in b && '|' !in c
    ensures '|' !in a + b + c
  {
  }

  lemma FormatShape(rec: Rec)
    ensures FormatRecommendation(rec) == Parts(rec)[0] + "|" + (Parts(rec)[1] + "|" + (Parts(rec)[2] + "|" + Parts(rec)[3]))
  {
  }

  lemma SplitFour(p0: string, p1: string, p2: string, p3: string)
    requires '|' !in p0 && '|' !in p1 && '|' !in p2 && '|' !in p3
    ensures SplitBar(p0 + "|" + (p1 + "|" + (p2 + "|" + p3))) == [p0, p1, p2, p3]
  {
    SplitBarNone(p3);
    SplitBarAppend(p2, p3);
    SplitBarAppend(p1, p2 + "|" + p3);
    SplitBarAppend(p0, p1 + "|" + (p2 + "|" + p3));
  }

  lemma FormatSplit(rec: Rec)
    requires '|' !in rec.title && '|' !in rec.kind
    ensures SplitBar(FormatRecommendation(rec)) == Parts(rec)
  {
    var p := Parts(rec);
    NoBarInNumber(rec.views);
    NoBarInNumber(rec.likes);
    NoBarIn("Title: ", rec.title, " ");
    NoBarIn(" Type: ", rec.kind, " ");
    NoBarIn(" Views: ", IntToString(rec.views), " ");
    NoBarIn(" Likes: ", IntToString(rec.likes), "");
    FormatShape(rec);
    SplitFour(p[0], p[1], p[2], p[3]);
  }

  /** The recommendation line is unambiguous: when neither title nor type
      contains `|`, the four fields can be read back from it. */
  lemma FormatRoundTrip(rec: Rec)
    requires '|' !in rec.title && '|' !in rec.kind
    ensures ParseRecommendation(FormatRecommendation(rec)) == Some(rec)
  {
    FormatSplit(rec);
    BetweenOf("Title: ", rec.title, " ");
    BetweenOf(" Type: ", rec.kind, " ");
    BetweenOf(" Views: ", IntToString(rec.views), " ");
    BetweenOf(" Likes: ", IntToString(rec.likes), "");
    IntToStringRoundTrip(rec.views);
    IntToStringRoundTrip(rec.likes);
  }

  /** Two recommendations with `|`-free titles and types have the same line
      only when they are the same. */
  lemma FormatInjective(a: Rec, b: Rec)
    requires '|' !in a.title && '|' !in a.kind && '|' !in b.title && '|' !in b.kind
    requires FormatRecommendation(a) == FormatRecommendation(b)
    ensures a == b
  {
    FormatRoundTrip(a);
    FormatRoundTrip(b);
  }
}
