# es-paras: PARAS result glue and the NRPS/PKS driver, in Dafny

This project models the core of es-paras, the antiSMASH extension that adds PARAS
substrate predictions for adenylation (A) domains to antiSMASH's NRPS/PKS analysis.

- `paras.dfy`, module `Paras` (es_paras/paras.py). A `ParasResult` holds the ranked
  `(score, name)` entries PARAS produced for one domain. `get_classification` returns the
  names of every entry whose score is exactly the first entry's score. `as_html` renders
  either a fixed "no hits" message or one line per entry between a header and a footer.
  `to_json`/`from_json` convert to and from the attribute dictionary. `run_paras` gathers
  the domains' translations, makes one batch call to the PARAS model with threshold 0.2,
  and maps the i-th result to the i-th domain's id.
- `overrides.dfy`, module `Overrides` (es_paras/overrides.py). `specific_analysis` skips a
  record without NRPS/PKS genes. Otherwise it adds the nrpys and PARAS results when the
  record has A domains, adds every PKS predictor's results, and stores the consensus pair
  computed over all results. It then files each candidate-cluster prediction of the order
  analysis under its parent region's number, asserting that the parent is a region.
- `wrappers.dfy`, module `Wrappers`: the `Result` type that stands for the Python
  exceptions (failed `assert`, `IndexError`, `KeyError`).

Every collaborator is an uninterpreted function: A-domain extraction, nrpys, the PKS
predictors, the consensus calculation, the order analysis and the PARAS model. They are
`const` fields of a `Host` object (and, for the PARAS model, of a `BulkScorer`), and each
call is appended to the object's ghost call record `calls`. The contracts can therefore say which collaborators run, in which
order and with which arguments. The record is a value: its NRPS/PKS genes and, for each
candidate-cluster number, that cluster's parent. The results store `NrpsPksResults` is a
class whose fields the driver updates in place.

Scores are `real`, compared with exact equality as the source does. The two-decimal
score format in `as_html` is a parameter `formatScore`.

Points where the code's behaviour is easy to misread:

- Ties need not be adjacent. Any later entry with a score equal to the first entry's is
  kept, in list order.
- `run_paras` checks neither sequences nor the result count. The batch call happens
  first. Then, position by position, an empty id fails the `assert`, and a missing
  result raises `IndexError` (`ParasError`). Results beyond the number of domains are
  ignored. The threshold is the constant 0.2.
- The driver exits early only when there are no NRPS/PKS genes. Without A domains it only
  skips nrpys and PARAS; the PKS predictors, the consensus and the order analysis still run.
- When a candidate cluster's parent is not a region, the predictions before it have
  already been filed when the assertion fails.
- A run_paras failure leaves the nrpys results in the store, since they were added first.

## Model

| member | source | states |
|---|---|---|
| Paras.GetClassification | es_paras/paras.py:23-31 | the loop returns `Classification(r)` whatever `asNorine` is, so the flag has no effect |
| Paras.TiedLength | es_paras/paras.py:27-30 | the kept entries are one per kept position and never more than the entries |
| Paras.TiedAt | es_paras/paras.py:27-31 | the k-th kept entry is the entry at the k-th kept position |
| Paras.TiedIndicesIncreasing | es_paras/paras.py:28-30 | kept positions are strictly increasing, so source order is preserved |
| Paras.TiedIndicesExact | es_paras/paras.py:28-30 | a position is kept if and only if its score equals the reference score exactly, adjacent or not |
| Paras.ClassificationIsTopTies | es_paras/paras.py:27-31 | the classification is exactly the names of the entries scoring the same as the first, in order |
| Paras.ClassificationEmptyIff | es_paras/paras.py:24-25 | the classification is empty if and only if the prediction list is |
| Paras.ClassificationBounds | es_paras/paras.py:27-31 | for a non-empty list: first name is the first entry's, 1 <= length <= number of entries, every name comes from an entry |
| Paras.NonAdjacentTieExample | es_paras/paras.py:28-30 | [(0.9, leu), (0.4, val), (0.9, ile)] classifies as [leu, ile] |
| Paras.SplitJoin | es_paras/paras.py:42-43 | splitting the newline-joined lines gives the lines back when none holds a newline |
| Paras.AsHtmlEmptyIff | es_paras/paras.py:34-35 | the summary is "No hits above threshold." if and only if there are no entries |
| Paras.AsHtmlLines | es_paras/paras.py:37-49 | with entries: fixed header, then one `<dd></dd><dt>name: score</dt>` line per entry in list order, then fixed footer |
| Paras.JsonRoundTrip | es_paras/paras.py:51-57 | from_json(to_json(r)) is r, with the same classification and summary, and the method tag written is "PARAS" |
| Paras.FromJsonReadsPredictions | es_paras/paras.py:54-57 | from_json fails with KeyError exactly when "predictions" is missing, and reads no other key |
| Paras.BulkScorer.RunParasBulk | es_paras/paras.py:66 | the batch call is recorded in the call log with its arguments and returns the model's result for them |
| Paras.RunParas | es_paras/paras.py:60-72 | exactly one batch call, with the translations in domain order and threshold 0.2, and the result is the positional assignment |
| Paras.AssignFailureSticks | es_paras/paras.py:67-70 | once an assertion or index error has occurred, later domains do not change the outcome |
| Paras.AssignSucceedsIff | es_paras/paras.py:67-70 | run_paras succeeds if and only if every id is non-empty and there is a result per domain |
| Paras.AssignFailsAtFirst | es_paras/paras.py:67-70 | a failure is at the first bad position: an empty id there is an assertion failure, otherwise a missing result is an index error |
| Paras.AssignKeys | es_paras/paras.py:67-70 | on success the key set is exactly the domain ids |
| Paras.AssignValues | es_paras/paras.py:67-70 | on success each id maps to a ParasResult of the result at the last position with that id |
| Paras.AssignIgnoresExtra | es_paras/paras.py:69 | results beyond the number of domains do not change the outcome |
| Paras.ParasResultsByDomain | es_paras/paras.py:62-72 | with distinct non-empty ids and enough results: success, keys are the ids, results[id_i] holds predictions[i] |
| Paras.TwoDomainExample | es_paras/paras.py:60-72 | domains A and B with results [[(0.9, leu), (0.9, ile), (0.4, val)], []] give A the classification [leu, ile] and B [] |
| Overrides.NrpsPksResults.AddMethodResults | es_paras/overrides.py:39 | a method's results join its earlier ones, and adding no per-domain result changes nothing; no other field changes |
| Overrides.Host.GetADomains | es_paras/overrides.py:36 | A-domain extraction is recorded in the call log with the record and genes and returns the extractor's domains |
| Overrides.Host.RunNrpysPredictions | es_paras/overrides.py:39 | nrpys is recorded in the call log with the domains and options and returns its results |
| Overrides.Host.RunPksPredictions | es_paras/overrides.py:43 | the PKS predictors are recorded in the call log with the genes and return their (method, results) pairs |
| Overrides.Host.CalculateConsensusPrediction | es_paras/overrides.py:46 | the consensus is recorded in the call log with the genes and predictions and returns its pair |
| Overrides.Host.AnalyseBiosyntheticOrder | es_paras/overrides.py:49-50 | the order analysis is recorded in the call log with the genes, consensus and record and returns its predictions |
| Overrides.AddAllConcat | es_paras/overrides.py:39-45 | adding two lists of method results in turn is adding their concatenation |
| Overrides.AddAllKeys | es_paras/overrides.py:39-45 | the methods present afterwards are those before plus every method added with at least one per-domain result |
| Overrides.AddAllAbsent | es_paras/overrides.py:39-45 | a method never added keeps its presence and its results |
| Overrides.AddAllOnce | es_paras/overrides.py:39-45 | a method added once has its earlier results joined by the added ones, and is present if and only if it was before or the added results are not empty |
| Overrides.ADomainMethodsIff | es_paras/overrides.py:37-41 | nrpys (paras) results are present if and only if there are A domains and nrpys (run_paras) gave some per-domain result; the stored results are exactly the two predictors' outputs, or nothing without A domains |
| Overrides.PksMethodsAdded | es_paras/overrides.py:43-45 | every PKS method's results are added, with or without A domains; the method is present if and only if it was before or its results are not empty |
| Overrides.ParasPresentIff | es_paras/overrides.py:37-41 | after a successful run_paras, paras results are present if and only if there are A domains |
| Overrides.FirstNonRegion | es_paras/overrides.py:51-54 | the position of the first prediction whose candidate cluster's parent is not a region, all before it being regions |
| Overrides.AttachedGroupsByRegion | es_paras/overrides.py:51-55 | region n's list gains exactly the predictions whose cluster is in region n, in order-analysis order |
| Overrides.ForRegionNone | es_paras/overrides.py:51-55 | a region that owns none of the predictions gains nothing |
| Overrides.AttachedKeys | es_paras/overrides.py:55 | region numbers with a list afterwards are those before plus the parents of filed predictions |
| Overrides.AttachedOtherRegions | es_paras/overrides.py:51-55 | the list of a region owning none of the predictions is unchanged |
| Overrides.AddADomainResults | es_paras/overrides.py:37-41 | with A domains: nrpys recorded in the call log and added, one PARAS batch call, PARAS results added unless run_paras failed; without: nothing happens |
| Overrides.AddPksResults | es_paras/overrides.py:43-45 | each PKS method's results are added in the order given; other fields unchanged |
| Overrides.AttachToRegions | es_paras/overrides.py:51-55 | predictions are filed by parent region up to the first non-region parent, where the loop stops |
| Overrides.CombineAndAttach | es_paras/overrides.py:43-55 | PKS results added, consensus pair computed over all results and stored, order analysis on that consensus, predictions filed |
| Overrides.SpecificAnalysis | es_paras/overrides.py:24-56 | no genes: nothing called or changed; otherwise the store, consensus, region lists, outcome and collaborator call log are as described; the same results object is returned |

## Left out

- es_paras/html/__init__.py (HTML templates, file copying, patching the host renderer) and es_paras/__main__.py (the command-line entry point and the reassignment of antiSMASH's `specific_analysis`) are not part of this model: they are I/O and process plumbing.
- The internals of the PARAS model, nrpys, the PKS predictors, the consensus calculation and the order analysis are uninterpreted functions; exceptions raised inside them are not modelled.
- Paras.AsHtmlLines: the two-decimal float formatting is the parameter `formatScore`; `Markup` only wraps the string and is modelled as the string itself. The line-by-line statement holds for names and formatted scores without a newline.
- Paras.GetClassification: scores are reals, so there is no NaN; in Python a NaN score never equals itself.
- Paras.FromJson: a "predictions" value that is not an entry list is refused with `NotAnEntryList`, whereas Python would store whatever value it finds.
- Paras.ToJson: the base class's attributes are assumed to be the method tag alone, stored under "method"; that class is not part of this model.
- Overrides.NrpsPksResults.AddMethodResults: the host store files predictions by domain id, then method; the model keeps the same content as method name to domain id to prediction, with a method present exactly when some domain has a prediction for it (so adding an empty mapping is a no-op). Adding a method again merges its per-domain results; the store's own internals are not part of this model.
- Overrides.SpecificAnalysis: `region_predictions` is a dictionary from region number to list, where a missing number reads as an empty list (a `defaultdict(list)`). The in-place append on a shared list is modelled as reassigning the field, so aliasing of those lists is not captured.
- Overrides.SpecificAnalysis: the candidate-cluster lookup is a total function of the record, so an unknown candidate-cluster number (a lookup error in the host) is not modelled.
- Overrides.ADomainMethodsIff, Overrides.ParasPresentIff and Overrides.PksMethodsAdded assume that the PKS methods have distinct names other than "nrpys" and "paras", as the predictors' dictionary gives them.
- The `logging` calls (debug and info messages) are left out: they produce no result.
