# DS Automobiles news monitor: the article pipeline

This project models the article pipeline of the "Veille DS Automobiles" Streamlit
app (`app.py`) and proves its contracts in Dafny. When the user presses "Lancer la
veille", the app does the following:

1. It queries two news providers, NewsData and Mediastack, for "DS Automobiles".
2. It normalises each provider's items into five-field records (`date`, `titre`,
   `contenu`, `source`, `lien`). A missing key becomes `""`, each list is cut to
   the slider's count, and any failure gives an empty list.
3. It merges the two lists, NewsData first.
4. If the merged list is empty, it shows a warning. Otherwise it enriches every
   row with three columns:
   - a summary: the first 200 characters plus `"..."`, or `""` for an empty body;
   - a tone: the classifier's label mapped to Negative/Neutral/Positive, or
     Neutral when the call fails;
   - a model tag: the first entry of `MODELES_DS` whose lower-case form occurs
     in the lower-cased title, or `"DS Global"`.
5. It parses the dates, sorts the rows newest first with unparseable dates (NaT)
   last, and applies the optional model filter and tone filter. The sentinel
   `"Tous"` switches a filter off.

Modules, one per component:

- `Text`: Python's `s[:n]`, ASCII `lower()`, the substring test `in`.
- `Adapters`: the two fetch functions, modelled on an already decoded response.
- `ModelTagging`: `MODELES_DS`, `detecter_modele` as a search loop, and its
  recursive specification `FirstMatch`.
- `Sentiment`: `convertir_ton` and the classifier call. The classifier is an
  oracle passed in as a function.
- `Frame`: the table rows and the date column.
- `Enrichment`: `analyser_article`.
- `Ordering`: the date sort.
- `Filtering`: the boolean-mask filters.
- `Veille`: the run itself, as a method that updates an array of rows in place.

What `app.py` does and does not do, as written:

- `RSS_FEEDS` is declared (app.py:14-17) but never fetched, so there are two
  adapters, not three.
- There is no notification code.
- Each request always sends `"fr"` as the language and no country.
- Each provider's list is cut client-side with `[:max_results]`.

## Model

| member | source | states |
|---|---|---|
| Text.Take | app.py:38 | Python's `s[:n]` returns a prefix of `s`. For `n >= 0` its length is `min(n, |s|)`; for negative `n` it is `max(0, |s| + n)`. |
| Text.Lower | app.py:59 | `str.lower()` keeps the length, turns each ASCII upper-case letter into its lower-case form (code point + 32), leaves none behind and keeps every other character. |
| Text.IsSubstring | app.py:59 | `needle in hay` holds whenever `needle` is a prefix of `hay`, and never when `needle` is longer than `hay`. |
| Text.IsSubstringOccurs | app.py:59 | The recursive `needle in hay` holds exactly when `needle` occurs at some index of `hay` (both directions). |
| Text.SubstringCharsOccur | app.py:59 | Every character of a needle found in a title occurs in that title. |
| Adapters.Get | app.py:33-37 | `item.get(key, "")` is the item's value when the key is present, and `""` otherwise. |
| Adapters.ToArticles | app.py:32-38 | The comprehension yields one record per item, in order: record `i` is built from item `i`. |
| Adapters.FetchArticles | app.py:29-40 | A failure yields `[]`. Otherwise record `i` is built from item `i` of the provider's list, and there are never more records than items. |
| Adapters.FetchNewsData | app.py:27-40 | `fetch_newsdata_articles`: `[]` on failure. Otherwise record `i` is built with the NewsData keys from item `i` of `results`, and there are `min(max_results, |results|)` records. |
| Adapters.FetchMediastack | app.py:42-55 | `fetch_mediastack_articles`: `[]` on failure. Otherwise record `i` is built with the Mediastack keys from item `i` of `data`, and there are `min(max_results, |data|)` records. |
| Adapters.FetchArticlesLength | app.py:29-40 | A failed request or decoding yields `[]`. Otherwise the list has `min(max_results, |items|)` records. |
| Adapters.MissingListIsEmpty | app.py:38 | A response without the list key (`data.get("results", [])`) yields no record. |
| Adapters.NewsDataRecords | app.py:32-38 | NewsData record `i` reads `pubDate`, `title`, `description`, `source_id` and `link` of item `i` of `results`. Each field is `""` when its key is absent. |
| Adapters.MediastackRecords | app.py:47-53 | Mediastack record `i` reads `published_at`, `title`, `description`, `source` and `url` of item `i` of `data`. Each field is `""` when its key is absent. |
| ModelTagging.FirstMatch | app.py:57-61 | The tag is an entry of the list or `"DS Global"`. A tag other than `"DS Global"` occurs case-insensitively in the title. |
| ModelTagging.DetecterModele | app.py:57-61 | The loop with its early return computes exactly the first-match specification over `MODELES_DS`. |
| ModelTagging.SearchStep | app.py:58-60 | One iteration: a matching entry is the answer; otherwise the answer comes from the remaining entries. |
| ModelTagging.FirstMatchIsFirst | app.py:58-60 | A matching entry with no earlier matching entry is the result (first match wins). |
| ModelTagging.FirstMatchNone | app.py:61 | When no entry matches, the result is `"DS Global"`. |
| ModelTagging.FirstMatchSome | app.py:58-60 | When some entry matches, the result is the matching entry with the smallest index. |
| ModelTagging.DetectedModelSpec | app.py:57-61 | Over `MODELES_DS`, the tag is `"DS Global"` if and only if no model occurs in the title. Otherwise it is the lowest-index model that occurs. |
| ModelTagging.EarlierEntryWins | app.py:19 | "DS3 et DS7" is tagged "DS7": list order decides, not position in the title. |
| ModelTagging.OrderMatters | app.py:58-60 | In a two-entry list, swapping "DS3" and "DS7" changes the tag of a title naming both: entry order, not title position, decides. |
| ModelTagging.CaseInsensitive | app.py:59 | Lower-casing the title first does not change its tag. |
| Sentiment.ConvertirTon | app.py:63-70 | The output is one of the three tones. It is Negative exactly for LABEL_0 and Positive exactly for LABEL_2; every other label, LABEL_1 included, gives Neutral. |
| Sentiment.ClassifierInput | app.py:74 | The classifier sees exactly `contenu[:512]`: the whole body when it has at most 512 characters, otherwise its first 512 characters. |
| Sentiment.Ton | app.py:73-77 | The tone is always one of the three labels. When the call returns a first prediction with a label, the tone is `convertir_ton` of that label. A raising call, an empty result or a first prediction without a label gives Neutral. |
| Sentiment.TonSeesOnlyPrefix | app.py:74 | Two bodies that agree on their first 512 characters get the same tone. |
| Frame.ParseDate | app.py:97 | A raw date cell becomes the parser's result for its text (NaT when unparseable). An already parsed cell is left as it is. Every other column is unchanged. |
| Enrichment.Resume | app.py:79 | The summary is empty exactly when the body is empty. Otherwise it is a body prefix of `min(200, |body|)` characters followed by `"..."`, so at most 203 characters. |
| Enrichment.ShortBodySummary | app.py:79 | A non-empty body of at most 200 characters is kept whole, then `"..."` is appended. |
| Enrichment.LongBodySummary | app.py:79 | A longer body is cut to its first 200 characters, then `"..."` is appended. |
| Enrichment.Analyse | app.py:72-80 | The analysis holds the summary of the body, the classifier's tone for it (the mapped label, or Neutral on failure) and the title's first-match tag. Hence the tone is one of the three labels, the tag is a list entry occurring in the title or `"DS Global"`, and the summary is empty exactly for an empty body and has the bounds above. |
| Enrichment.AnalyserArticle | app.py:72-80 | The method, which calls the search loop, returns the specified analysis, with a tone in the three-label set and a model from the list or the fallback. |
| Ordering.SortByDate | app.py:98 | The sorted table is a permutation of its input (same multiset). Dated rows come newest first and NaT rows last. |
| Ordering.SortedDescMeans | app.py:96-98 | The sort order means exactly two things: timestamps of dated rows never increase, and no dated row follows a NaT row. |
| Ordering.ThreeRowExample | app.py:97-98 | Dates 2024-01-05, NaT, 2024-03-01 come out as 2024-03-01, 2024-01-05, NaT. |
| Filtering.Filter | app.py:101 | Mask selection keeps exactly the rows that pass the mask, and never lengthens the table. |
| Filtering.FilterMultiset | app.py:101 | Each row is kept as often as it occurs when it passes the mask, and is dropped entirely otherwise. |
| Filtering.FilterIsSubsequence | app.py:101 | Filtering never reorders: the result is a subsequence of the input. |
| Filtering.FilterIdempotent | app.py:103 | Filtering twice with the same mask equals filtering once. |
| Filtering.FilterCommute | app.py:100-103 | Two masks applied in sequence commute. |
| Filtering.FilterKeepsSorted | app.py:98-103 | Filtering a sorted table leaves it sorted. |
| Filtering.ByModel | app.py:100-101 | A row survives exactly when the selector is `"Tous"` or the row's `modèle` equals the selector. |
| Filtering.ByTon | app.py:102-103 | A row survives exactly when the selector is `"Tous"` or the row's `ton` equals the selector. |
| Filtering.FiltersCommute | app.py:100-103 | The model filter and the tone filter can be applied in either order. |
| Filtering.FiltersIdempotent | app.py:100-103 | Applying either filter a second time changes nothing. |
| Filtering.FiltersMultiset | app.py:100-103 | After both filters, every row that passes them occurs as often as in the input and every other row is gone: nothing is deduplicated. |
| Filtering.FiltersKeepOrder | app.py:98-103 | After both filters, the rows are a subsequence of the sorted table and remain sorted. |
| Veille.Merged | app.py:88-90 | The merged list's length is the sum of the two providers' counts. |
| Veille.Run | app.py:88-107 | The run ends in the warning exactly when the merged list is empty. Otherwise it shows a table sorted newest first, with NaT last, and no longer than the merged list. |
| Veille.PreparedAll | app.py:94-97 | Enriching and parsing give one row per merged record, in order, built from that record. |
| Veille.ApplyAnalysis | app.py:94 | The in-place `apply` gives every row the three analysis columns. No row is dropped or moved. |
| Veille.ParseDateColumn | app.py:97 | Each date cell is overwritten in place by its parsed form. No row is dropped or moved. |
| Veille.LancerLaVeille | app.py:87-107 | The in-place run (fetch, merge, enrich, parse, sort, filter) produces exactly the specified screen. |
| Veille.NoArticlesWhenBothEmpty | app.py:92-107 | The warning is shown if and only if both providers returned no record. |
| Veille.PreparedRow | app.py:90-97 | Every prepared row keeps its record's fields, carries the parsed date and exactly the analysis of its record, so a tone from the three labels and a model from the list or `"DS Global"`. |
| Veille.TableContents | app.py:97-103 | The table holds exactly the prepared rows that pass both filters, each as many times as it was prepared. It is sorted newest first with NaT last, and keeps the sorted table's order. |
| Veille.TableRowsEnriched | app.py:94-103 | Every shown row has a parsed date, a valid tone and a valid model, and it equals each active filter's selected value. |

Single-expression helpers are covered by the rows of their callers:
`Adapters.Items` (`data.get(key, [])`), `ModelTagging.Matches` (`m.lower() in titre.lower()`),
`Frame.Load` (one DataFrame row), `Frame.Enrich` (storing the three columns) and
`Filtering.KeepModel`/`KeepTon` (the two masks).

## Left out

- Streamlit UI (page config, title, slider, select boxes, button, spinner, table, warning text): presentation only. The slider and the select boxes are plain parameters.
- The projection to seven columns at line 105: display only. The table keeps whole rows.
- `st.secrets`, the API keys and the request parameters (query, `"fr"`): configuration and network. The HTTP request and `response.json()` are folded into the adapter's input, `Response`. Any exception there is `Failed`.
- Keys of a response other than the list key (`status`, `totalResults`, ...): the adapters never read them, so `Response` drops them and holds only lists of items.
- JSON values that are `null`, non-string fields or a non-list `results`/`data` value: the response type cannot represent them. Nor can it hold an item that is not a JSON object (`item.get` raises) or a top-level JSON value that is not an object (`data.get` raises). In the source, those two cases, and some of the first three, end in `[]` through the bare `except` (app.py:39-40, 54-55).
- The Hugging Face pipeline, its model download and its `st.cache_resource` singleton: the classifier is an oracle, `classify`. The prediction's `score` is not modelled because it is never read.
- `pd.to_datetime(errors='coerce')`: a per-value oracle `parse` that returns a timestamp or NaT. pandas' inference of one format for the whole column, and time zones, are not modelled.
- Ordering.SortByDate: an insertion sort stands for pandas' `sort_values`. The model fixes one order among rows with equal dates and among NaT rows. The source leaves that order unspecified, so only the permutation and the ordering are claimed for it.
- Text.LowerChar: lowercases ASCII letters only. Python's full Unicode case mapping is not modelled. Every name in `MODELES_DS` lowercases the same way under both.
- `RSS_FEEDS`: declared but never fetched, so no feed adapter exists to model. There is no notification code in this file.
- Enrichment.AnalyserArticle: calls the search-loop method. The pipeline's `apply` is given its specification function `Analyse`, because a function argument cannot be a method.
