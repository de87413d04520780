/**
 * `analyser_article`: the summary, tone and model tag of one row.
 */
module Enrichment {
  import opened Wrappers
  import opened Text
  import opened ModelTagging
  import opened Sentiment
  import opened Frame

  const SUMMARY_LENGTH: nat := 200
  const ELLIPSIS: string := "..."

  /** `contenu[:200] + "..." if contenu else ""`: empty for an empty body,
      otherwise a prefix of at most 200 characters followed by "...",
      even when the body is shorter than that. */
  function Resume(contenu: string): (r: string)
    ensures r == "" <==> contenu == ""
    ensures contenu != "" ==>
      && |r| == (if |contenu| < SUMMARY_LENGTH then |contenu| else SUMMARY_LENGTH) + |ELLIPSIS|
      && r[|r| - |ELLIPSIS|..] == ELLIPSIS
      && r[..|r| - |ELLIPSIS|] <= contenu
    ensures |r| <= SUMMARY_LENGTH + |ELLIPSIS|
  {
    if contenu != "" then Take(contenu, SUMMARY_LENGTH) + ELLIPSIS else ""
  }

  /** A body of at most 200 characters is kept whole before the marker. */
  lemma ShortBodySummary(contenu: string)
    requires 0 < |contenu| <= SUMMARY_LENGTH
    ensures Resume(contenu) == contenu + ELLIPSIS
  {
    assert Take(contenu, SUMMARY_LENGTH) == contenu;
  }

  /** The summary of a long body is its first 200 characters and the marker. */
  lemma LongBodySummary(contenu: string)
    requires SUMMARY_LENGTH < |contenu|
    ensures Resume(contenu) == contenu[..SUMMARY_LENGTH] + ELLIPSIS
  {
  }

  /** The pandas Series `analyser_article` returns for a row: the summary
      of the body, the classifier's tone for it and the first model named
      in the title; hence a tone from the three labels, a model from the
      list (found in the title) or the fallback, and a summary that is
      empty only for an empty body. */
  function Analyse(classify: string -> Prediction, r: Row): (a: Analysis)
    ensures a.ton in TONES
    ensures a.modele in MODELES_DS || a.modele == FALLBACK
    ensures a.modele != FALLBACK ==> Matches(a.modele, r.titre)
    ensures a.resume == "" <==> r.contenu == ""
    ensures |a.resume| <= SUMMARY_LENGTH + |ELLIPSIS|
    ensures a.resume == Resume(r.contenu) && a.ton == Ton(classify, r.contenu) && a.modele == DetectedModel(r.titre)
  {
    Analysis(Resume(r.contenu), Ton(classify, r.contenu), DetectedModel(r.titre))
  }

  /** `analyser_article`, calling the search loop of `detecter_modele`. */
  method AnalyserArticle(classify: string -> Prediction, r: Row) returns (a: Analysis)
    ensures a == Analyse(classify, r)
    ensures a.ton in TONES
    ensures a.modele in MODELES_DS || a.modele == FALLBACK
  {
    var sentiment := Ton(classify, r.contenu);
    var modele := DetecterModele(r.titre);
    var resume := Resume(r.contenu);
    a := Analysis(resume, sentiment, modele);
  }
}
