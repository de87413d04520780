/**
 * The run triggered by the "Lancer la veille" button (lines 88-107):
 * fetch both providers, merge, and when anything came back enrich every
 * row, parse the dates, sort newest first and apply the two filters.
 * The slider and the two select boxes arrive as parameters; the
 * classifier and the date parser are oracles.
 */
module Veille {
  import opened Wrappers
  import opened Adapters
  import opened ModelTagging
  import opened Sentiment
  import opened Frame
  import opened Enrichment
  import opened Ordering
  import opened Filtering

  /** The query both providers are sent. */
  const QUERY: string := "DS Automobiles"

  /** What the screen ends with: the "Aucun article trouvé." warning, or
      the table of the selected rows. */
  datatype Screen = NoArticles | Table(rows: seq<Row>)

  /** Lines 88-90: NewsData's records, then Mediastack's. */
  function Merged(news: Response, media: Response, nbArticles: int): (m: seq<Article>)
    ensures |m| == |FetchNewsData(news, nbArticles)| + |FetchMediastack(media, nbArticles)|
  {
    FetchNewsData(news, nbArticles) + FetchMediastack(media, nbArticles)
  }

  /** Lines 94 and 97 on one merged record. */
  function Prepared(classify: string -> Prediction, parse: string -> Option<int>, a: Article): Row
  {
    ParseDate(parse, Enrich(Load(a), Analyse(classify, Load(a))))
  }

  /** The table after lines 94 and 97: one row per merged record, in order. */
  function PreparedAll(classify: string -> Prediction, parse: string -> Option<int>, merged: seq<Article>): (rows: seq<Row>)
    ensures |rows| == |merged|
    ensures forall i :: 0 <= i < |merged| ==> rows[i] == Prepared(classify, parse, merged[i])
  {
    seq(|merged|, i requires 0 <= i < |merged| => Prepared(classify, parse, merged[i]))
  }

  /** The specification of one run: the warning exactly when nothing was
      merged, otherwise a table sorted newest first, no longer than the
      merged list. */
  function Run(news: Response, media: Response, nbArticles: int,
               classify: string -> Prediction, parse: string -> Option<int>,
               filtreModele: string, filtreTon: string): (screen: Screen)
    ensures screen.NoArticles? <==> Merged(news, media, nbArticles) == []
    ensures screen.Table? ==> SortedDesc(screen.rows) && |screen.rows| <= |Merged(news, media, nbArticles)|
  {
    var merged := Merged(news, media, nbArticles);
    if merged == [] then NoArticles
    else
      var sorted := SortByDate(PreparedAll(classify, parse, merged));
      assert |sorted| == |multiset(sorted)| == |merged|;
      FiltersKeepOrder(sorted, filtreModele, filtreTon);
      Table(ByTon(ByModel(sorted, filtreModele), filtreTon))
  }

  /** Lines 88-107, updating the table in place as pandas does. */
  method LancerLaVeille(news: Response, media: Response, nbArticles: int,
                        classify: string -> Prediction, parse: string -> Option<int>,
                        filtreModele: string, filtreTon: string) returns (screen: Screen)
    ensures screen == Run(news, media, nbArticles, classify, parse, filtreModele, filtreTon)
  {
    var newsdata := FetchNewsData(news, nbArticles);
    var mediastack := FetchMediastack(media, nbArticles);
    var merged := newsdata + mediastack;
    if |merged| == 0 {
      return NoArticles;
    }
    var articles := new Row[|merged|](i requires 0 <= i < |merged| => Load(merged[i]));
    ApplyAnalysis(articles, r => Analyse(classify, r));
    ParseDateColumn(articles, parse);
    assert articles[..] == PreparedAll(classify, parse, merged);
    // lines 98-103: sort, then the two optional filters
    var rows := SortByDate(articles[..]);
    if filtreModele != TOUS {
      rows := KeepModel(rows, filtreModele);
    }
    if filtreTon != TOUS {
      rows := KeepTon(rows, filtreTon);
    }
    screen := Table(rows);
  }

  /** Line 94: `articles.apply(analyser_article, axis=1)` stored into three
      new columns of every row, no row dropped or moved. */
  method ApplyAnalysis(articles: array<Row>, analyse: Row -> Analysis)
    modifies articles
    ensures forall k :: 0 <= k < articles.Length ==>
              articles[k] == Enrich(old(articles[k]), analyse(old(articles[k])))
  {
    for i := 0 to articles.Length
      invariant forall k :: 0 <= k < i ==>
                  articles[k] == Enrich(old(articles[k]), analyse(old(articles[k])))
      invariant forall k :: i <= k < articles.Length ==> articles[k] == old(articles[k])
    {
      var row := articles[i];
      articles[i] := Enrich(row, analyse(row));
    }
  }

  /** Line 97: the date column overwritten by its parsed form, row by row. */
  method ParseDateColumn(articles: array<Row>, parse: string -> Option<int>)
    modifies articles
    ensures forall k :: 0 <= k < articles.Length ==> articles[k] == ParseDate(parse, old(articles[k]))
  {
    for i := 0 to articles.Length
      invariant forall k :: 0 <= k < i ==> articles[k] == ParseDate(parse, old(articles[k]))
      invariant forall k :: i <= k < articles.Length ==> articles[k] == old(articles[k])
    {
      articles[i] := ParseDate(parse, articles[i]);
    }
  }

  /** The warning is shown exactly when both providers returned nothing. */
  lemma NoArticlesWhenBothEmpty(news: Response, media: Response, nbArticles: int,
                                classify: string -> Prediction, parse: string -> Option<int>,
                                filtreModele: string, filtreTon: string)
    ensures Run(news, media, nbArticles, classify, parse, filtreModele, filtreTon).NoArticles? <==>
            FetchNewsData(news, nbArticles) == [] && FetchMediastack(media, nbArticles) == []
  {
  }

  /** Every prepared row carries all columns: a parsed date, a tone from the
      three labels and a model from the list or the fallback, with the
      merged record's own fields. */
  lemma PreparedRow(classify: string -> Prediction, parse: string -> Option<int>, a: Article)
    ensures var r := Prepared(classify, parse, a);
            && r.date == Parsed(parse(a.date))
            && r.titre == a.titre && r.contenu == a.contenu && r.source == a.source && r.lien == a.lien
            && r.enrichment == Some(Analyse(classify, Load(a)))
            && r.enrichment.value.ton in TONES
            && (r.enrichment.value.modele in MODELES_DS || r.enrichment.value.modele == FALLBACK)
            && (r.enrichment.value.resume == "" <==> a.contenu == "")
  {
  }

  /** What a table shows: exactly the prepared rows that pass both filters,
      newest first with NaT last, in an order that keeps the sorted table's. */
  lemma TableContents(news: Response, media: Response, nbArticles: int,
                      classify: string -> Prediction, parse: string -> Option<int>,
                      filtreModele: string, filtreTon: string)
    requires Merged(news, media, nbArticles) != []
    ensures var prepared := PreparedAll(classify, parse, Merged(news, media, nbArticles));
            var shown := Run(news, media, nbArticles, classify, parse, filtreModele, filtreTon).rows;
            && SortedDesc(shown)
            && IsSubsequence(shown, SortByDate(prepared))
            && (forall r :: r in shown <==>
                  r in prepared && (filtreModele == TOUS || ModelIs(r, filtreModele))
                                && (filtreTon == TOUS || TonIs(r, filtreTon)))
            && (forall r :: multiset(shown)[r] ==
                  if (filtreModele == TOUS || ModelIs(r, filtreModele)) && (filtreTon == TOUS || TonIs(r, filtreTon))
                  then multiset(prepared)[r] else 0)
  {
    var prepared := PreparedAll(classify, parse, Merged(news, media, nbArticles));
    var sorted := SortByDate(prepared);
    FiltersKeepOrder(sorted, filtreModele, filtreTon);
    forall r
      ensures multiset(ByTon(ByModel(sorted, filtreModele), filtreTon))[r] ==
              if (filtreModele == TOUS || ModelIs(r, filtreModele)) && (filtreTon == TOUS || TonIs(r, filtreTon))
              then multiset(prepared)[r] else 0
    {
      FiltersMultiset(sorted, filtreModele, filtreTon, r);
    }
    forall r
      ensures r in sorted <==> r in prepared
    {
      assert r in sorted <==> r in multiset(sorted);
      assert r in prepared <==> r in multiset(prepared);
    }
  }

  /** Every shown row is fully enriched, with a parsed date. */
  lemma TableRowsEnriched(news: Response, media: Response, nbArticles: int,
                          classify: string -> Prediction, parse: string -> Option<int>,
                          filtreModele: string, filtreTon: string, r: Row)
    requires Merged(news, media, nbArticles) != []
    requires r in Run(news, media, nbArticles, classify, parse, filtreModele, filtreTon).rows
    ensures r.date.Parsed? && r.enrichment.Some?
    ensures r.enrichment.value.ton in TONES
    ensures r.enrichment.value.modele in MODELES_DS || r.enrichment.value.modele == FALLBACK
    ensures filtreModele != TOUS ==> r.enrichment.value.modele == filtreModele
    ensures filtreTon != TOUS ==> r.enrichment.value.ton == filtreTon
  {
    TableContents(news, media, nbArticles, classify, parse, filtreModele, filtreTon);
    var merged := Merged(news, media, nbArticles);
    var prepared := PreparedAll(classify, parse, merged);
    var i :| 0 <= i < |prepared| && prepared[i] == r;
    PreparedRow(classify, parse, merged[i]);
  }
}
