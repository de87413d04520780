/**
 * Sentiment: `convertir_ton` and the classifier call inside
 * `analyser_article`. The Hugging Face classifier is an oracle, passed in
 * as a function from the submitted text to what the call produced.
 */
module Sentiment {
  import opened Text

  const NEGATIVE: string := "Negative"
  const NEUTRAL: string := "Neutral"
  const POSITIVE: string := "Positive"

  /** The three tones a row can carry. */
  const TONES: set<string> := {POSITIVE, NEUTRAL, NEGATIVE}

  /** The longest text handed to the classifier. */
  const MAX_INPUT: nat := 512

  /** What one classifier call produced: it raised, or it returned a list
      of predictions, each a dict that normally holds a "label" key. */
  datatype Prediction = Raised | Returned(predictions: seq<map<string, string>>)

  /** `convertir_ton`: LABEL_0, LABEL_1 and LABEL_2 are the negative,
      neutral and positive classes; every other label reads as neutral. */
  function ConvertirTon(classLabel: string): (r: string)
    ensures r in TONES
    ensures r == NEGATIVE <==> classLabel == "LABEL_0"
    ensures r == POSITIVE <==> classLabel == "LABEL_2"
    ensures r == NEUTRAL <==> classLabel != "LABEL_0" && classLabel != "LABEL_2"
  {
    if classLabel == "LABEL_0" then NEGATIVE
    else if classLabel == "LABEL_1" then NEUTRAL
    else if classLabel == "LABEL_2" then POSITIVE
    else NEUTRAL
  }

  /** `contenu[:512]`, the text the classifier sees. */
  function ClassifierInput(contenu: string): (t: string)
    ensures t <= contenu
    ensures |t| <= MAX_INPUT
    ensures |contenu| <= MAX_INPUT ==> t == contenu
    ensures MAX_INPUT < |contenu| ==> t == contenu[..MAX_INPUT]
  {
    Take(contenu, MAX_INPUT)
  }

  /** The try/except of `analyser_article`: the mapped label of the first
      prediction, or "Neutral" when the call raises or its result has no
      first prediction with a label. */
  function Ton(classify: string -> Prediction, contenu: string): (r: string)
    ensures r in TONES
    ensures classify(ClassifierInput(contenu)).Raised? ==> r == NEUTRAL
    ensures classify(ClassifierInput(contenu)).Returned? ==>
              var predictions := classify(ClassifierInput(contenu)).predictions;
              (|predictions| == 0 || "label" !in predictions[0]) ==> r == NEUTRAL
    ensures classify(ClassifierInput(contenu)).Returned? ==>
              var predictions := classify(ClassifierInput(contenu)).predictions;
              (0 < |predictions| && "label" in predictions[0]) ==> r == ConvertirTon(predictions[0]["label"])
  {
    match classify(ClassifierInput(contenu))
    case Raised => NEUTRAL
    case Returned(predictions) =>
      if 0 < |predictions| && "label" in predictions[0] then ConvertirTon(predictions[0]["label"])
      else NEUTRAL
  }

  /** Two bodies that agree on their first 512 characters get the same tone. */
  lemma TonSeesOnlyPrefix(classify: string -> Prediction, c1: string, c2: string)
    requires MAX_INPUT <= |c1| && MAX_INPUT <= |c2| && c1[..MAX_INPUT] == c2[..MAX_INPUT]
    ensures Ton(classify, c1) == Ton(classify, c2)
  {
    assert ClassifierInput(c1) == c1[..MAX_INPUT];
    assert ClassifierInput(c2) == c2[..MAX_INPUT];
  }
}
