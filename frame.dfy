/**
 * The rows of the `articles` table built at line 90 from the merged
 * records, and the columns the pipeline adds or overwrites afterwards.
 */
module Frame {
  import opened Wrappers
  import opened Adapters

  /** The three columns `résumé`, `ton` and `modèle` added at line 94. */
  datatype Analysis = Analysis(resume: string, ton: string, modele: string)

  /** The `date` column: the provider's raw string until line 97 overwrites
      it with the parsed timestamp, None standing for NaT. */
  datatype Date = Raw(text: string) | Parsed(stamp: Option<int>)

  /** One row; `enrichment` is None until line 94 adds the three columns. */
  datatype Row = Row(date: Date, titre: string, contenu: string, source: string, lien: string,
                     enrichment: Option<Analysis>)

  /** The row `pd.DataFrame` makes of one merged record. */
  function Load(a: Article): (r: Row)
  {
    Row(Raw(a.date), a.titre, a.contenu, a.source, a.lien, None)
  }

  /** Line 94 on one row: the three columns are stored, nothing else changes. */
  function Enrich(r: Row, analysis: Analysis): Row
  {
    r.(enrichment := Some(analysis))
  }

  /** The sort key: the parsed timestamp, None (NaT) for a date that could
      not be parsed; rows are only sorted once every date is parsed. */
  function Key(r: Row): Option<int>
  {
    match r.date
    case Parsed(stamp) => stamp
    case Raw(_) => None
  }

  /** `pd.to_datetime(..., errors='coerce')` on one cell, with the parser
      as an oracle; an already parsed cell is left as it is. */
  function ParseDate(parse: string -> Option<int>, r: Row): (r': Row)
    ensures r'.date.Parsed?
    ensures r.date.Raw? ==> r'.date == Parsed(parse(r.date.text))
    ensures r.date.Parsed? ==> r' == r
    ensures r'.titre == r.titre && r'.contenu == r.contenu && r'.source == r.source
            && r'.lien == r.lien && r'.enrichment == r.enrichment
  {
    match r.date
    case Raw(text) => r.(date := Parsed(parse(text)))
    case Parsed(_) => r
  }
}
