/**
 * `detecter_modele`: tag an article with the first DS model, in the order
 * of `MODELES_DS`, whose lower-case name occurs in the lower-cased title,
 * or with "DS Global" when none does.
 */
module ModelTagging {
  import opened Text

  /** The known models, in the priority order the search uses. */
  const MODELES_DS: seq<string> := ["DS N4", "DS N8", "DS7", "DS3", "DS9", "DS4", "Jules Verne", "N°4", "N°8"]

  /** The tag of a title that names no known model. */
  const FALLBACK: string := "DS Global"

  /** `m.lower() in titre.lower()`. */
  predicate Matches(m: string, titre: string)
  {
    IsSubstring(Lower(m), Lower(titre))
  }

  /** The specification of the search over any ordered list of models. */
  function FirstMatch(models: seq<string>, titre: string): (r: string)
    ensures r in models || r == FALLBACK
    ensures r != FALLBACK ==> Matches(r, titre)
  {
    if models == [] then FALLBACK
    else if Matches(models[0], titre) then models[0]
    else FirstMatch(models[1..], titre)
  }

  function DetectedModel(titre: string): string
  {
    FirstMatch(MODELES_DS, titre)
  }

  /** The loop of `detecter_modele`, with its early return. */
  method DetecterModele(titre: string) returns (m: string)
    ensures m == DetectedModel(titre)
  {
    for k := 0 to |MODELES_DS|
      invariant FirstMatch(MODELES_DS[k..], titre) == DetectedModel(titre)
    {
      SearchStep(MODELES_DS, k, titre);
      if IsSubstring(Lower(MODELES_DS[k]), Lower(titre)) {
        return MODELES_DS[k];
      }
    }
    return FALLBACK;
  }

  /** One iteration of the search: the entry at `k` is the answer when it
      matches, otherwise the search goes on with the entries after it. */
  lemma SearchStep(models: seq<string>, k: int, titre: string)
    requires 0 <= k < |models|
    ensures Matches(models[k], titre) ==> FirstMatch(models[k..], titre) == models[k]
    ensures !Matches(models[k], titre) ==> FirstMatch(models[k..], titre) == FirstMatch(models[k + 1..], titre)
  {
    assert models[k..][0] == models[k] && models[k..][1..] == models[k + 1..];
  }

  /** First match wins: an entry that matches, with no earlier entry
      matching, is the result. */
  lemma {:induction false} FirstMatchIsFirst(models: seq<string>, titre: string, k: int)
    requires 0 <= k < |models| && Matches(models[k], titre)
    requires forall j :: 0 <= j < k ==> !Matches(models[j], titre)
    ensures FirstMatch(models, titre) == models[k]
  {
    if k > 0 {
      assert !Matches(models[0], titre);
      FirstMatchIsFirst(models[1..], titre, k - 1);
    }
  }

  /** When no entry matches, the result is the fallback. */
  lemma {:induction false} FirstMatchNone(models: seq<string>, titre: string)
    requires forall j :: 0 <= j < |models| ==> !Matches(models[j], titre)
    ensures FirstMatch(models, titre) == FALLBACK
  {
    if models != [] {
      assert !Matches(models[0], titre);
      FirstMatchNone(models[1..], titre);
    }
  }

  /** When some entry matches, the result is the earliest matching entry. */
  lemma {:induction false} FirstMatchSome(models: seq<string>, titre: string, j: int)
    requires 0 <= j < |models| && Matches(models[j], titre)
    ensures exists k :: 0 <= k <= j && FirstMatch(models, titre) == models[k] && Matches(models[k], titre)
                        && forall i :: 0 <= i < k ==> !Matches(models[i], titre)
  {
    if Matches(models[0], titre) {
      assert FirstMatch(models, titre) == models[0];
    } else {
      FirstMatchSome(models[1..], titre, j - 1);
      var k :| 0 <= k <= j - 1 && FirstMatch(models[1..], titre) == models[1..][k] && Matches(models[1..][k], titre)
               && forall i :: 0 <= i < k ==> !Matches(models[1..][i], titre);
      assert forall i :: 0 < i < k + 1 ==> models[i] == models[1..][i - 1];
    }
  }

  /** The tag of `detecter_modele` is "DS Global" exactly when no known model
      occurs in the title, and otherwise is the first known model that does. */
  lemma DetectedModelSpec(titre: string)
    ensures DetectedModel(titre) == FALLBACK <==> forall j :: 0 <= j < |MODELES_DS| ==> !Matches(MODELES_DS[j], titre)
    ensures DetectedModel(titre) != FALLBACK ==>
      exists k :: 0 <= k < |MODELES_DS| && DetectedModel(titre) == MODELES_DS[k] && Matches(MODELES_DS[k], titre)
                  && forall j :: 0 <= j < k ==> !Matches(MODELES_DS[j], titre)
  {
    if j :| 0 <= j < |MODELES_DS| && Matches(MODELES_DS[j], titre) {
      FirstMatchSome(MODELES_DS, titre, j);
      assert FALLBACK !in MODELES_DS;
    } else {
      FirstMatchNone(MODELES_DS, titre);
    }
  }

  /** A title naming both the DS3 and the DS7 is tagged "DS7": the list
      order decides, not the position in the title. */
  lemma EarlierEntryWins(titre: string)
    requires titre == "DS3 et DS7"
    ensures DetectedModel(titre) == "DS7"
  {
    FirstTwoMiss(titre);
    ThirdHits(titre);
    FirstMatchIsFirst(MODELES_DS, titre, 2);
  }

  lemma FirstTwoMiss(titre: string)
    requires titre == "DS3 et DS7"
    ensures !Matches(MODELES_DS[0], titre) && !Matches(MODELES_DS[1], titre)
  {
    assert MODELES_DS[0] == "DS N4" && MODELES_DS[1] == "DS N8";
    NoNInTitle("DS N4");
    NoNInTitle("DS N8");
  }

  lemma ThirdHits(titre: string)
    requires titre == "DS3 et DS7"
    ensures Matches(MODELES_DS[2], titre)
  {
    TitleNames("DS7", 7);
  }

  lemma NoNInTitle(m: string)
    requires m == "DS N4" || m == "DS N8"
    ensures !Matches(m, "DS3 et DS7")
  {
    var lowered := LowerTitle("DS3 et DS7");
    assert Lower(m)[3] == 'n';
    SubstringCharsOccur(Lower(m), lowered);
  }

  lemma TitleNames(m: string, at: int)
    requires (m == "DS3" && at == 0) || (m == "DS7" && at == 7)
    ensures Matches(m, "DS3 et DS7")
  {
    var lowered := LowerTitle("DS3 et DS7");
    assert OccursAt(Lower(m), lowered, at);
    OccursIsSubstring(Lower(m), lowered, at);
  }

  lemma LowerTitle(titre: string) returns (lowered: string)
    requires titre == "DS3 et DS7"
    ensures lowered == Lower(titre) && lowered == "ds3 et ds7"
  {
    lowered := Lower(titre);
    assert lowered == "ds3 et ds7";
  }

  /** The order of the list is part of the contract: swapping two entries
      changes the tag of a title that names both. */
  lemma OrderMatters()
    ensures FirstMatch(["DS3", "DS7"], "DS3 et DS7") == "DS3"
    ensures FirstMatch(["DS7", "DS3"], "DS3 et DS7") == "DS7"
  {
    TitleNames("DS3", 0);
    TitleNames("DS7", 7);
    FirstMatchIsFirst(["DS3", "DS7"], "DS3 et DS7", 0);
    FirstMatchIsFirst(["DS7", "DS3"], "DS3 et DS7", 0);
  }

  /** Case does not matter: a lower-case title is tagged like its capitalised form. */
  lemma CaseInsensitive(titre: string)
    ensures DetectedModel(Lower(titre)) == DetectedModel(titre)
  {
    FirstMatchLowerTitle(MODELES_DS, titre);
  }

  lemma {:induction false} FirstMatchLowerTitle(models: seq<string>, titre: string)
    ensures FirstMatch(models, Lower(titre)) == FirstMatch(models, titre)
  {
    LowerIdempotent(titre);
    if models != [] {
      FirstMatchLowerTitle(models[1..], titre);
    }
  }
}
