/**
 * The two provider adapters, `fetch_newsdata_articles` and
 * `fetch_mediastack_articles`: each turns one decoded JSON response into
 * a list of five-field article records (`date`, `titre`, `contenu`,
 * `source`, `lien`), reading the provider's own key names, defaulting a
 * missing key to "" and keeping at most `max_results` items. The HTTP
 * request and the JSON decoding are not modelled: the adapter receives
 * their outcome, and any exception raised there becomes `Failed`.
 */
module Adapters {
  import opened Text

  /** One provider item: a JSON object whose values are strings. */
  type Item = map<string, string>

  /** What `requests.get(...).json()` produced: an exception anywhere in the
      request or the decoding, or a JSON object whose values are lists of items. */
  datatype Response = Failed | Decoded(body: map<string, seq<Item>>)

  /** The canonical record shared by every provider. */
  datatype Article = Article(date: string, titre: string, contenu: string, source: string, lien: string)

  /** A provider's key names: the list holding the items, then the key read
      for each of the five record fields. */
  datatype Schema = Schema(list: string, date: string, titre: string, contenu: string, source: string, lien: string)

  const NewsDataSchema: Schema := Schema("results", "pubDate", "title", "description", "source_id", "link")
  const MediastackSchema: Schema := Schema("data", "published_at", "title", "description", "source", "url")

  /** `item.get(key, "")`. */
  function Get(item: Item, key: string): (v: string)
    ensures key in item ==> v == item[key]
    ensures key !in item ==> v == ""
  {
    if key in item then item[key] else ""
  }

  /** `data.get(list, [])`. */
  function Items(body: map<string, seq<Item>>, list: string): seq<Item>
  {
    if list in body then body[list] else []
  }

  function ToArticle(schema: Schema, item: Item): Article
  {
    Article(Get(item, schema.date), Get(item, schema.titre), Get(item, schema.contenu),
            Get(item, schema.source), Get(item, schema.lien))
  }

  /** The list comprehension: record `i` is built from item `i`. */
  function ToArticles(schema: Schema, items: seq<Item>): (r: seq<Article>)
    ensures |r| == |items|
    ensures forall i :: 0 <= i < |items| ==> r[i] == ToArticle(schema, items[i])
  {
    if items == [] then [] else [ToArticle(schema, items[0])] + ToArticles(schema, items[1..])
  }

  /** The body shared by both adapters, with the provider's schema. */
  function FetchArticles(schema: Schema, response: Response, maxResults: int): (r: seq<Article>)
    ensures response.Failed? ==> r == []
    ensures response.Decoded? ==> |r| <= |Items(response.body, schema.list)|
    ensures forall i :: 0 <= i < |r| ==>
              response.Decoded? && r[i] == ToArticle(schema, Items(response.body, schema.list)[i])
  {
    match response
    case Failed => []
    case Decoded(body) => ToArticles(schema, Take(Items(body, schema.list), maxResults))
  }

  function FetchNewsData(response: Response, maxResults: int): (r: seq<Article>)
    ensures response.Failed? ==> r == []
    ensures response.Decoded? ==> |r| <= |Items(response.body, "results")|
    ensures response.Decoded? && 0 <= maxResults ==>
              |r| == (if maxResults < |Items(response.body, "results")| then maxResults else |Items(response.body, "results")|)
    ensures forall i :: 0 <= i < |r| ==>
              response.Decoded? && r[i] == ToArticle(NewsDataSchema, Items(response.body, "results")[i])
  {
    FetchArticles(NewsDataSchema, response, maxResults)
  }

  function FetchMediastack(response: Response, maxResults: int): (r: seq<Article>)
    ensures response.Failed? ==> r == []
    ensures response.Decoded? ==> |r| <= |Items(response.body, "data")|
    ensures response.Decoded? && 0 <= maxResults ==>
              |r| == (if maxResults < |Items(response.body, "data")| then maxResults else |Items(response.body, "data")|)
    ensures forall i :: 0 <= i < |r| ==>
              response.Decoded? && r[i] == ToArticle(MediastackSchema, Items(response.body, "data")[i])
  {
    FetchArticles(MediastackSchema, response, maxResults)
  }

  /** The number of records an adapter returns: none after a failure,
      otherwise `min(max_results, |items|)` for a non-negative limit. */
  lemma FetchArticlesLength(schema: Schema, response: Response, maxResults: int)
    ensures response.Failed? ==> FetchArticles(schema, response, maxResults) == []
    ensures response.Decoded? && 0 <= maxResults ==>
      var items := Items(response.body, schema.list);
      |FetchArticles(schema, response, maxResults)| == (if maxResults < |items| then maxResults else |items|)
  {
  }

  /** A response without the list key yields no record. */
  lemma MissingListIsEmpty(schema: Schema, body: map<string, seq<Item>>, maxResults: int)
    requires schema.list !in body
    ensures FetchArticles(schema, Decoded(body), maxResults) == []
  {
  }

  /** NewsData: record `i` reads `pubDate`, `title`, `description`,
      `source_id` and `link` of item `i` of `results`, "" when a key is absent. */
  lemma NewsDataRecords(body: map<string, seq<Item>>, maxResults: int, i: int)
    requires 0 <= i < |FetchNewsData(Decoded(body), maxResults)|
    ensures "results" in body && i < |body["results"]|
    ensures var item := body["results"][i];
            var a := FetchNewsData(Decoded(body), maxResults)[i];
            && a.date == Get(item, "pubDate")
            && a.titre == Get(item, "title")
            && a.contenu == Get(item, "description")
            && a.source == Get(item, "source_id")
            && a.lien == Get(item, "link")
  {
    var items := Take(Items(body, "results"), maxResults);
    assert items[i] == Items(body, "results")[i];
  }

  /** Mediastack: record `i` reads `published_at`, `title`, `description`,
      `source` and `url` of item `i` of `data`, "" when a key is absent. */
  lemma MediastackRecords(body: map<string, seq<Item>>, maxResults: int, i: int)
    requires 0 <= i < |FetchMediastack(Decoded(body), maxResults)|
    ensures "data" in body && i < |body["data"]|
    ensures var item := body["data"][i];
            var a := FetchMediastack(Decoded(body), maxResults)[i];
            && a.date == Get(item, "published_at")
            && a.titre == Get(item, "title")
            && a.contenu == Get(item, "description")
            && a.source == Get(item, "source")
            && a.lien == Get(item, "url")
  {
    var items := Take(Items(body, "data"), maxResults);
    assert items[i] == Items(body, "data")[i];
  }
}
