/** The synthetic data generator: users, content, interactions,
    recommendations and regional trends built from random choices, and
    `convert_dates`, which turns the `date` objects of a document into
    `datetime`s at midnight so that the document store accepts them.

    `random` and Faker are nondeterministic choices: each primitive below
    promises only what the library documents (a value in range, an element
    of the sequence, distinct positions), and text Faker makes up is any
    string. */
module FakeData {

  import opened Values
  import opened Decimal

  const Regions: seq<string> := ["North America", "Europe", "Asia", "South America"]
  const ContentTypes: seq<string> := ["movie", "webseries", "documentary"]
  const Genres: seq<string> := ["Sci-Fi", "Romance", "Thriller", "Comedy", "Drama"]
  const Tags: seq<string> := ["action", "adventure", "mystery", "fantasy", "horror"]
  const InteractionTypes: seq<string> := ["view", "like", "share"]
  const Genders: seq<string> := ["male", "female", "other"]
  const Reasons: seq<string> := ["Based on your interests", "Trending in your location", "Similar to content you've watched"]

  // ---------------------------------------------------------------------
  // Random primitives

  /** `randint(lo, hi)`: both ends included. */
  method RandInt(lo: int, hi: int) returns (k: int)
    requires lo <= hi
    ensures lo <= k <= hi
  {
    k :| lo <= k <= hi;
  }

  /** `uniform(lo, hi)`. */
  method Uniform(lo: real, hi: real) returns (x: real)
    requires lo <= hi
    ensures lo <= x <= hi
  {
    x := *;
    if !(lo <= x <= hi) {
      x := lo;
    }
  }

  /** Text made up by Faker (`uuid4`, `name`, `sentence`, `paragraph`, an
      `isoformat()` timestamp): any string. */
  method FakeText() returns (s: string)
  {
    s := *;
  }

  /** `fake.date_this_decade()`: some calendar date. */
  method FakeDate() returns (d: Date)
    ensures 1 <= d.month <= 12 && 1 <= d.day <= 31
  {
    d := *;
    if !(1 <= d.month <= 12 && 1 <= d.day <= 31) {
      d := Date(2020, 1, 1);
    }
  }

  /** The position `choice(s)` picks: IndexError on an empty sequence. */
  method Choice(n: nat) returns (r: Result<nat>)
    ensures r.Err? <==> n == 0
    ensures r.Err? ==> r.error == IndexError
    ensures r.Ok? ==> r.value < n
  {
    if n == 0 {
      return Err(IndexError);
    }
    var i := RandInt(0, n - 1);
    return Ok(i);
  }

  predicate Distinct<T(==)>(s: seq<T>) {
    forall i, j :: 0 <= i < j < |s| ==> s[i] != s[j]
  }

  /** The positions `sample(population, k)` draws from a population of `n`:
      `k` distinct positions, ValueError when `k` exceeds `n`. Like the
      library, it draws one position at a time from those not yet drawn. */
  method SamplePositions(n: nat, k: nat) returns (r: Result<seq<nat>>)
    ensures r.Err? <==> k > n
    ensures r.Err? ==> r.error == ValueError
    ensures r.Ok? ==> |r.value| == k && Distinct(r.value) && forall i :: 0 <= i < k ==> r.value[i] < n
  {
    if k > n {
      return Err(ValueError);
    }
    var pool: seq<nat> := seq(n, i requires 0 <= i < n => i);
    var chosen: seq<nat> := [];
    while |chosen| < k
      invariant |chosen| + |pool| == n && |chosen| <= k
      invariant forall i :: 0 <= i < |chosen| ==> chosen[i] < n
      invariant forall i :: 0 <= i < |pool| ==> pool[i] < n
      invariant Distinct(chosen) && Distinct(pool)
      invariant forall i, j :: 0 <= i < |chosen| && 0 <= j < |pool| ==> chosen[i] != pool[j]
    {
      var j := RandInt(0, |pool| - 1);
      var p := pool[j];
      var rest := pool[..j] + pool[j + 1..];
      assert forall i :: 0 <= i < |rest| ==> rest[i] == (if i < j then pool[i] else pool[i + 1]);
      chosen := chosen + [p];
      pool := rest;
    }
    return Ok(chosen);
  }

  /** The elements at the given positions, in the order drawn. */
  function Pick<T>(population: seq<T>, positions: seq<nat>): (s: seq<T>)
    requires forall i :: 0 <= i < |positions| ==> positions[i] < |population|
    ensures |s| == |positions|
    ensures forall i :: 0 <= i < |s| ==> s[i] == population[positions[i]] && s[i] in population
  {
    seq(|positions|, i requires 0 <= i < |positions| => population[positions[i]])
  }

  /** Distinct positions of a population without repeats give distinct
      elements. */
  lemma PickDistinct<T>(population: seq<T>, positions: seq<nat>)
    requires forall i :: 0 <= i < |positions| ==> positions[i] < |population|
    requires Distinct(population) && Distinct(positions)
    ensures Distinct(Pick(population, positions))
  {
    var s := Pick(population, positions);
    forall i, j | 0 <= i < j < |s|
      ensures s[i] != s[j]
    {
      if positions[i] < positions[j] {
        assert population[positions[i]] != population[positions[j]];
      } else {
        assert population[positions[j]] != population[positions[i]];
      }
    }
  }

  /** The genre and tag lists have no repeats. */
  lemma ListsDistinct()
    ensures Distinct(Genres) && Distinct(Tags)
  {
  }

  // ---------------------------------------------------------------------
  // Records

  datatype Profile = Profile(age: int, gender: string, interests: seq<string>)

  /** A generated user; latitude and longitude stay floats in the source. */
  datatype User = User(userId: string, name: string, location: string,
                       latitude: real, longitude: real, profile: Profile)

  datatype Metadata = Metadata(duration: string, actors: seq<string>, releaseDate: Date)

  /** A generated content item; `kind` is the `type` field. */
  datatype Content = Content(contentId: string, title: string, description: string, kind: string,
                             genre: string, tags: seq<string>, metadata: Metadata)

  datatype Interaction = Interaction(userId: string, contentId: string, interactionType: string, timestamp: string)

  datatype Recommendation = Recommendation(userId: string, contentId: string, score: real,
                                           reason: string, timestamp: string)

  datatype Engagement = Engagement(totalViews: int, totalLikes: int, totalShares: int)

  datatype Trend = Trend(region: string, topContent: string, trendingContent: seq<string>, engagement: Engagement)

  /** What `generate_users` promises of each user. */
  predicate UserOk(u: User) {
    && u.location in Regions
    && -90.0 <= u.latitude <= 90.0 && -180.0 <= u.longitude <= 180.0
    && 18 <= u.profile.age <= 70
    && u.profile.gender in Genders
    && |u.profile.interests| == 3 && Distinct(u.profile.interests)
    && forall i :: 0 <= i < 3 ==> u.profile.interests[i] in Genres
  }

  /** `f"{k} mins"` for a length of 60 to 180 minutes. */
  predicate DurationOk(duration: string) {
    exists k :: 60 <= k <= 180 && duration == NatToString(k) + " mins"
  }

  /** What `generate_content` promises of each item. */
  predicate ContentOk(c: Content) {
    && c.kind in ContentTypes
    && c.genre in Genres
    && |c.tags| == 3 && Distinct(c.tags)
    && (forall i :: 0 <= i < 3 ==> c.tags[i] in Tags)
    && DurationOk(c.metadata.duration)
    && |c.metadata.actors| == 3
  }

  /** Some user has this id. */
  predicate UserIdIn(id: string, users: seq<User>) {
    exists u :: u in users && u.userId == id
  }

  /** Some content item has this id. */
  predicate ContentIdIn(id: string, content: seq<Content>) {
    exists c :: c in content && c.contentId == id
  }

  /** Some content item has this title. */
  predicate TitleIn(title: string, content: seq<Content>) {
    exists c :: c in content && c.title == title
  }

  /** What `generate_interaction_history` promises of each interaction. */
  predicate InteractionOk(x: Interaction, users: seq<User>, content: seq<Content>) {
    UserIdIn(x.userId, users) && ContentIdIn(x.contentId, content) && x.interactionType in InteractionTypes
  }

  /** What `generate_recommendations` promises of each recommendation. */
  predicate RecommendationOk(x: Recommendation, users: seq<User>, content: seq<Content>) {
    && UserIdIn(x.userId, users) && ContentIdIn(x.contentId, content)
    && 0.5 <= x.score <= 5.0
    && x.reason in Reasons
  }

  /** Whether `trending` is the titles of the content items at positions `p`
      and `q`, in that order. */
  predicate TitlesAt(trending: seq<string>, content: seq<Content>, p: int, q: int) {
    0 <= p < |content| && 0 <= q < |content| && trending == [content[p].title, content[q].title]
  }

  /** What `generate_regional_trends` promises of the trend for `region`:
      the trending titles are those of two different content items. */
  predicate TrendOk(t: Trend, region: string, content: seq<Content>) {
    && t.region == region
    && TitleIn(t.topContent, content)
    && |t.trendingContent| == 2 && (forall i :: 0 <= i < 2 ==> TitleIn(t.trendingContent[i], content))
    && (exists p, q | 0 <= p < |content| && 0 <= q < |content| :: p != q && TitlesAt(t.trendingContent, content, p, q))
    && 1000 <= t.engagement.totalViews <= 10000
    && 500 <= t.engagement.totalLikes <= 5000
    && 100 <= t.engagement.totalShares <= 1000
  }

  // ---------------------------------------------------------------------
  // Generators

  /** One user of `generate_users`. */
  method GenerateUser() returns (u: User)
    ensures UserOk(u)
  {
    var userId := FakeText();
    var name := FakeText();
    var location := RandInt(0, |Regions| - 1);
    var latitude := Uniform(-90.0, 90.0);
    var longitude := Uniform(-180.0, 180.0);
    var age := RandInt(18, 70);
    var gender := RandInt(0, |Genders| - 1);
    var interests := SamplePositions(|Genres|, 3);
    ListsDistinct();
    PickDistinct(Genres, interests.value);
    u := User(userId, name, Regions[location], latitude, longitude,
              Profile(age, Genders[gender], Pick(Genres, interests.value)));
  }

  /** `generate_users(n)`: exactly `n` users. */
  method GenerateUsers(n: nat) returns (users: seq<User>)
    ensures |users| == n
    ensures forall i :: 0 <= i < n ==> UserOk(users[i])
  {
    users := [];
    for i := 0 to n
      invariant |users| == i
      invariant forall j :: 0 <= j < i ==> UserOk(users[j])
    {
      var user := GenerateUser();
      users := users + [user];
    }
  }

  /** One content item of `generate_content`. */
  method GenerateContentItem() returns (c: Content)
    ensures ContentOk(c)
  {
    var contentId := FakeText();
    var title := FakeText();
    var description := FakeText();
    var kind := RandInt(0, |ContentTypes| - 1);
    var genre := RandInt(0, |Genres| - 1);
    var tags := SamplePositions(|Tags|, 3);
    ListsDistinct();
    PickDistinct(Tags, tags.value);
    var minutes := RandInt(60, 180);
    var actors: seq<string> := [];
    for i := 0 to 3
      invariant |actors| == i
    {
      var actor := FakeText();
      actors := actors + [actor];
    }
    var released := FakeDate();
    c := Content(contentId, title, description, ContentTypes[kind], Genres[genre], Pick(Tags, tags.value),
                 Metadata(NatToString(minutes) + " mins", actors, released));
  }

  /** `generate_content(n)`: exactly `n` items. */
  method GenerateContent(n: nat) returns (content: seq<Content>)
    ensures |content| == n
    ensures forall i :: 0 <= i < n ==> ContentOk(content[i])
  {
    content := [];
    for i := 0 to n
      invariant |content| == i
      invariant forall j :: 0 <= j < i ==> ContentOk(content[j])
    {
      var item := GenerateContentItem();
      content := content + [item];
    }
  }

  /** `generate_interaction_history(users, content_list, n)`: `choice` on
      an empty list raises IndexError at the first iteration. */
  method GenerateInteractionHistory(users: seq<User>, content: seq<Content>, n: nat)
    returns (r: Result<seq<Interaction>>)
    ensures r.Err? <==> n > 0 && (users == [] || content == [])
    ensures r.Err? ==> r.error == IndexError
    ensures r.Ok? ==> |r.value| == n && forall i :: 0 <= i < n ==> InteractionOk(r.value[i], users, content)
  {
    var history: seq<Interaction> := [];
    for i := 0 to n
      invariant |history| == i
      invariant i > 0 ==> users != [] && content != []
      invariant forall j :: 0 <= j < i ==> InteractionOk(history[j], users, content)
    {
      var user :- Choice(|users|);
      var item :- Choice(|content|);
      var kind := RandInt(0, |InteractionTypes| - 1);
      var timestamp := FakeText();
      var x := Interaction(users[user].userId, content[item].contentId, InteractionTypes[kind], timestamp);
      assert users[user] in users && content[item] in content;
      history := history + [x];
    }
    return Ok(history);
  }

  /** `generate_recommendations(users, content_list, n)`. */
  method GenerateRecommendations(users: seq<User>, content: seq<Content>, n: nat)
    returns (r: Result<seq<Recommendation>>)
    ensures r.Err? <==> n > 0 && (users == [] || content == [])
    ensures r.Err? ==> r.error == IndexError
    ensures r.Ok? ==> |r.value| == n && forall i :: 0 <= i < n ==> RecommendationOk(r.value[i], users, content)
  {
    var recommendations: seq<Recommendation> := [];
    for i := 0 to n
      invariant |recommendations| == i
      invariant i > 0 ==> users != [] && content != []
      invariant forall j :: 0 <= j < i ==> RecommendationOk(recommendations[j], users, content)
    {
      var user :- Choice(|users|);
      var item :- Choice(|content|);
      var score := Uniform(0.5, 5.0);
      var reason := RandInt(0, |Reasons| - 1);
      var timestamp := FakeText();
      var x := Recommendation(users[user].userId, content[item].contentId, score, Reasons[reason], timestamp);
      assert users[user] in users && content[item] in content;
      recommendations := recommendations + [x];
    }
    return Ok(recommendations);
  }

  /** The titles of the content list, in order. */
  function Titles(content: seq<Content>): (titles: seq<string>)
    ensures |titles| == |content|
    ensures forall i :: 0 <= i < |content| ==> titles[i] == content[i].title
  {
    seq(|content|, i requires 0 <= i < |content| => content[i].title)
  }

  /** `generate_regional_trends(content_list)`: one trend per region, in
      the order of `regions`. An empty list fails at `choice` (IndexError),
      a single item at `sample(..., 2)` (ValueError). */
  method GenerateRegionalTrends(content: seq<Content>) returns (r: Result<seq<Trend>>)
    ensures r.Err? <==> |content| < 2
    ensures content == [] ==> r == Err(IndexError)
    ensures |content| == 1 ==> r == Err(ValueError)
    ensures r.Ok? ==> |r.value| == |Regions| && forall i :: 0 <= i < |Regions| ==> TrendOk(r.value[i], Regions[i], content)
  {
    var trends: seq<Trend> := [];
    for i := 0 to |Regions|
      invariant |trends| == i
      invariant i > 0 ==> |content| >= 2
      invariant forall j :: 0 <= j < i ==> TrendOk(trends[j], Regions[j], content)
    {
      var top :- Choice(|content|);
      var titles := Titles(content);
      var trending :- SamplePositions(|titles|, 2);
      var views := RandInt(1000, 10000);
      var likes := RandInt(500, 5000);
      var shares := RandInt(100, 1000);
      var picked := Pick(titles, trending);
      assert content[top] in content;
      assert forall t :: 0 <= t < 2 ==> content[trending[t]] in content && picked[t] == content[trending[t]].title;
      assert trending[0] != trending[1] && TitlesAt(picked, content, trending[0], trending[1]);
      trends := trends + [Trend(Regions[i], content[top].title, picked, Engagement(views, likes, shares))];
    }
    return Ok(trends);
  }

  // ---------------------------------------------------------------------
  // convert_dates

  /** `datetime.combine(d, datetime.min.time())`. */
  function Midnight(d: Date): (dt: DateTime)
    ensures dt.hour == 0 && dt.minute == 0 && dt.second == 0 && dt.microsecond == 0
    ensures dt.year == d.year && dt.month == d.month && dt.day == d.day
  {
    DateTime(d.year, d.month, d.day, 0, 0, 0, 0)
  }

  /** `convert_dates(data)`: a list is rebuilt from its converted elements;
      in a dict, a `date` value becomes a `datetime` at midnight and a
      nested dict or list is converted; anything else, including a `date`
      that is not under a dict key, is returned as it is. */
  function Converted(v: Value): Value
    decreases v, 0
  {
    match v
    case List(items) => List(seq(|items|, i requires 0 <= i < |items| => Converted(items[i])))
    case Dict(fields) => Dict(map k | k in fields :: ConvertedField(fields[k]))
    case _ => v
  }

  /** What one iteration of the dict loop stores under a key. */
  function ConvertedField(v: Value): Value
    decreases v, 1
  {
    if v.DateVal? then DateTimeVal(Midnight(v.date))
    else if v.Dict? || v.List? then Converted(v)
    else v
  }

  /** `convert_dates`: the list branch builds a new list; the dict branch
      overwrites each value of the dict while iterating over its keys. */
  method ConvertDates(data: Value) returns (result: Value)
    ensures result == Converted(data)
    decreases data
  {
    match data {
      case List(items) =>
        var converted: seq<Value> := [];
        for i := 0 to |items|
          invariant |converted| == i
          invariant forall j :: 0 <= j < i ==> converted[j] == Converted(items[j])
        {
          var item := ConvertDates(items[i]);
          converted := converted + [item];
        }
        result := List(converted);
      case Dict(fields) =>
        var updated := fields;
        var remaining := fields.Keys;
        while remaining != {}
          invariant remaining <= fields.Keys && updated.Keys == fields.Keys
          invariant forall k :: k in fields && k !in remaining ==> updated[k] == ConvertedField(fields[k])
          invariant forall k :: k in remaining ==> updated[k] == fields[k]
          decreases remaining
        {
          var key :| key in remaining;
          var value := fields[key];
          if value.DateVal? {
            updated := updated[key := DateTimeVal(Midnight(value.date))];
          } else if value.Dict? || value.List? {
            var converted := ConvertDates(value);
            updated := updated[key := converted];
          }
          remaining := remaining - {key};
        }
        assert updated == map k | k in fields :: ConvertedField(fields[k]);
        result := Dict(updated);
      case _ =>
        result := data;
    }
  }

  /** No dict, at any depth, holds a `date` directly. */
  predicate Settled(v: Value)
    decreases v
  {
    match v
    case List(items) => forall i :: 0 <= i < |items| ==> Settled(items[i])
    case Dict(fields) => forall k :: k in fields ==> !fields[k].DateVal? && Settled(fields[k])
    case _ => true
  }

  /** After conversion no dict holds a `date`. */
  lemma {:induction false} ConvertedSettled(v: Value)
    ensures Settled(Converted(v))
    decreases v
  {
    match v
    case List(items) =>
      forall i | 0 <= i < |items|
        ensures Settled(Converted(items[i]))
      {
        ConvertedSettled(items[i]);
      }
    case Dict(fields) =>
      var converted := Converted(v).fields;
      forall k | k in converted
        ensures !converted[k].DateVal? && Settled(converted[k])
      {
        assert converted[k] == ConvertedField(fields[k]);
        ConvertedSettled(fields[k]);
      }
    case _ =>
  }

  /** A document is left unchanged by `convert_dates` exactly when no dict
      in it holds a `date`. */
  lemma {:induction false} ConvertedFixed(v: Value)
    ensures Converted(v) == v <==> Settled(v)
    decreases v
  {
    match v
    case List(items) =>
      forall i | 0 <= i < |items|
        ensures Converted(items[i]) == items[i] <==> Settled(items[i])
      {
        ConvertedFixed(items[i]);
      }
      if Settled(v) {
        assert Converted(v).items == items;
      } else {
        var i :| 0 <= i < |items| && !Settled(items[i]);
        assert Converted(v).items[i] != items[i];
      }
    case Dict(fields) =>
      forall k | k in fields
        ensures Converted(fields[k]) == fields[k] <==> Settled(fields[k])
      {
        ConvertedFixed(fields[k]);
      }
      if Settled(v) {
        assert Converted(v).fields == fields;
      } else {
        var k :| k in fields && (fields[k].DateVal? || !Settled(fields[k]));
        assert Converted(v).fields[k] != fields[k];
      }
    case _ =>
  }

  /** `convert_dates` is idempotent. */
  lemma ConvertIdempotent(v: Value)
    ensures Converted(Converted(v)) == Converted(v)
  {
    ConvertedSettled(v);
    ConvertedFixed(Converted(v));
  }

  /** A list keeps its length and each element is converted on its own; a
      dict keeps its keys; a `date` under a key becomes midnight of that
      day and a `datetime` is left alone. */
  lemma ConvertedShape(v: Value)
    ensures v.List? ==> (Converted(v).List? && |Converted(v).items| == |v.items|
      && forall i :: 0 <= i < |v.items| ==> Converted(v).items[i] == Converted(v.items[i]))
    ensures v.Dict? ==> Converted(v).Dict? && Converted(v).fields.Keys == v.fields.Keys
    ensures v.Dict? ==> forall k :: k in v.fields && v.fields[k].DateVal? ==>
      Converted(v).fields[k] == DateTimeVal(Midnight(v.fields[k].date))
    ensures v.Dict? ==> forall k :: k in v.fields && !v.fields[k].DateVal? && !v.fields[k].Dict? && !v.fields[k].List? ==>
      Converted(v).fields[k] == v.fields[k]
    ensures !v.List? && !v.Dict? ==> Converted(v) == v
  {
  }

  /** The document `generate_content` builds for an item. */
  function ContentValue(c: Content): Value {
    Dict(map[
      "content_id" := Str(c.contentId),
      "title" := Str(c.title),
      "description" := Str(c.description),
      "type" := Str(c.kind),
      "genre" := Str(c.genre),
      "tags" := List(seq(|c.tags|, i requires 0 <= i < |c.tags| => Str(c.tags[i]))),
      "metadata" := Dict(map[
        "duration" := Str(c.metadata.duration),
        "actors" := List(seq(|c.metadata.actors|, i requires 0 <= i < |c.metadata.actors| => Str(c.metadata.actors[i]))),
        "release_date" := DateVal(c.metadata.releaseDate)])])
  }

  /** In a converted content document the release date is midnight of the
      generated day, which is what the content loader later reads back as
      `$date`; the other fields are unchanged. */
  lemma ContentDateConverted(c: Content)
    ensures var d := Converted(ContentValue(c));
      && d.Dict? && "metadata" in d.fields && d.fields["metadata"].Dict?
      && "release_date" in d.fields["metadata"].fields
      && d.fields["metadata"].fields["release_date"] == DateTimeVal(Midnight(c.metadata.releaseDate))
      && d.fields["title"] == Str(c.title)
  {
    var v := ContentValue(c);
    var metadata := v.fields["metadata"];
    var date := metadata.fields["release_date"];
    assert Converted(v).fields["metadata"] == ConvertedField(metadata) == Converted(metadata);
    assert Converted(metadata).fields["release_date"] == ConvertedField(date);
  }
}
