# SEO Master core, modelled in Dafny

This project models the logic at the centre of the SEO Master keyword tracker:

- **Analysis workers** (`app/workers/analysis.py`):
  - the cross-platform visibility score (`KeywordAnalyzer.calculate_visibility_score`);
  - the database rows written for a keyword clustering once it has been labelled (`KeywordAnalyzer.cluster_keywords`);
  - the ranking-trend forecast (`ForecastEngine.predict_keyword_trends`).
- **Background jobs** (`app/workers/tasks.py`): `scrape_keyword_data`, `analyze_keyword_cluster` and `generate_forecast`. Each is a procedure that changes a database session (pending rows, committed rows, primary keys) and reports a status dictionary.
- **Dashboard data handling** (`streamlit_app.py`):
  - `process_seo_dataframe`: case-insensitive column renaming, synthesis of missing columns, numeric cleaning, market segment, and three derived scores;
  - the difficulty quadrant binning;
  - the keyword-frequency table of the competitor scraper tab.

Layout:

| file | module | models |
|---|---|---|
| `common.dfy` | `Common` | Option/Result, min/max, `clip`, ASCII `lower()`, `str(n)` |
| `models.dfy` | `Models` | the ORM rows that are read and written (`Keyword`, `Ranking`, `Cluster`, `ClusterKeyword`) |
| `session.dfy` | `Db` | the SQLAlchemy session as a class: `add`+`flush`, `commit`, `rollback`, `close`, queries |
| `visibility.dfy` | `Visibility` | what the visibility scorer computes, and its properties |
| `clustering.dfy` | `Clustering` | the rows a labelled clustering produces, and the index error |
| `forecasting.dfy` | `Forecasting` | the forecast post-processing around an ordinary least-squares fit |
| `analysis.dfy` | `Analysis` | the two engine classes, with the scorer and the clustering as loops over the session |
| `tasks.dfy` | `Tasks` | the three Celery tasks as session-mutating methods, and their outcomes |
| `seoframe.dfy` | `SeoFrame` | `process_seo_dataframe` over a column-wise data frame |
| `dashboard.dfy` | `Dashboard` | the quadrant `pd.cut` and `Counter(...).most_common(10)` |

Each method that works step by step is proved against a specification function: the visibility map, the materialised rows, the outcome of a job, or the processed frame. The lemmas state what the source promises about those functions.

Inputs instead of I/O:

- The scrapers' outputs are a `ScraperOutputs` value:
  - the Google results;
  - whether the AI overview was included;
  - the number of videos;
  - any exception raised while building or calling a scraper, or while closing the AI scraper.
- The k-means labels (or the exception raised while computing them) are inputs.
- The current time is a parameter.
- Query and commit failures are fixed per session (`queryError`, `commitError`).

### Where the code and its description differ (the model follows the code)

- With an empty ranking list the scorer returns an empty map, not a score of 0.
- The collection job never calls the scorer. With every scraper empty it still commits a `google_ai` row and a `youtube` row, both without a position and with visibility 0, and reports `success`.
- `cluster_keywords` has no guard for fewer than two keywords. It creates `min(n_clusters, #distinct labels)` clusters and indexes them by label. If the labels are not the contiguous range `0..d-1`, it raises `IndexError`. The job then rolls back.
- `generate_forecast` does not roll back in its error branch. It writes nothing, so the model's session is unchanged there.
- If closing the AI scraper raises after the commit, the job reports `error`, but the rows are already committed.
- The empty-input frame has ten columns and no `Perplexity` column, although eleven columns are required for non-empty input.

## Model

| member | source | states |
|---|---|---|
| Visibility.Weight | app/workers/analysis.py:59-75 | the weight of a platform lies in [0.5, 1.0] |
| Visibility.WeightOfPlatform | app/workers/analysis.py:59-75 | a platform listed in the six-entry table, in any letter case, gets its table weight; any other platform gets 0.5 |
| Visibility.WeightKeysDistinct | app/workers/analysis.py:59-66 | no platform is listed twice in the weight table |
| Visibility.LookupListed | app/workers/analysis.py:75 | `weights.get(key, 0.5)` returns the entry of a listed key |
| Visibility.LookupUnlisted | app/workers/analysis.py:75 | `weights.get(key, 0.5)` returns 0.5 for an unlisted key |
| Visibility.Term | app/workers/analysis.py:72-75 | what one ranking adds to a keyword's sum is never negative |
| Visibility.VisibilityScores | app/workers/analysis.py:68-86 | a keyword id is in the result iff it has at least one ranking with a present, positive position; an empty list gives an empty map |
| Visibility.AccumulateIsTotal | app/workers/analysis.py:68-80 | the first loop's dictionary holds exactly the contributing keywords, each with the sum of its weighted scores |
| Visibility.AccumulateStep | app/workers/analysis.py:72-80 | one more ranking creates or grows its keyword's entry by `max(0, 100-5*pos) * weight` exactly when its position is present and positive; otherwise nothing changes |
| Visibility.NormalizedAccumulate | app/workers/analysis.py:82-84 | normalising every entry of the loop's dictionary gives the scorer's map |
| Visibility.ScoreIsCappedSixth | app/workers/analysis.py:82-84 | every score is `min(100, sum / 6)` and lies in [0, 100]; the divisor is the table size |
| Visibility.SingleTopGoogleRanking | app/workers/analysis.py:69-84 | one google ranking at position 1, in any letter case, scores 95/6 |
| Visibility.TotalOfNonContributor | app/workers/analysis.py:72 | a keyword with no contributing ranking sums to 0 |
| Visibility.TotalNonNegative | app/workers/analysis.py:74-80 | every keyword's sum is non-negative |
| Visibility.TotalAppend | app/workers/analysis.py:68-80 | the sum over two ranking lists is the sum of their sums |
| Visibility.TotalAfterImproving | app/workers/analysis.py:72-80 | lowering one positive position never lowers its keyword's sum and leaves other keywords' sums alone |
| Visibility.ImprovingPositionNeverLowersScore | app/workers/analysis.py:72-84 | lowering one ranking's positive position never decreases its keyword's score; no key appears or disappears, and no other score moves |
| Visibility.OtherKeywordsDoNotMatter | app/workers/analysis.py:77-80 | a ranking of another keyword, inserted anywhere, changes neither whether `k` is scored nor its score |
| Visibility.TotalInsertOther | app/workers/analysis.py:77-80 | inserting another keyword's ranking leaves `k`'s sum unchanged |
| Visibility.ContributorsInsertOther | app/workers/analysis.py:77-78 | inserting another keyword's ranking leaves `k`'s presence unchanged |
| Analysis.NormalizeAll | app/workers/analysis.py:83-84 | the normalisation loop maps every entry to `min(100, sum / 6)` and keeps the key set |
| Analysis.KeywordAnalyzer.constructor | app/workers/analysis.py:11-12 | the analyzer holds the session it was given |
| Analysis.KeywordAnalyzer.CalculateVisibilityScore | app/workers/analysis.py:52-86 | the two loops return exactly `VisibilityScores(rankings)` |
| Analysis.KeywordAnalyzer.ClusterKeywords | app/workers/analysis.py:14-50 | a labelling error leaves the session unchanged; otherwise the materialised rows are added in order, and then either the index error (nothing committed), the commit error (nothing committed), or the commit of all of them and the created clusters |
| Analysis.KeywordAnalyzer.Materialise | app/workers/analysis.py:29-50 | the rows for one labelling are pending or committed as above; the index error is raised exactly when some label has no cluster |
| Analysis.KeywordAnalyzer.AddRows | app/workers/analysis.py:29-47 | both loops append exactly the materialised rows to the pending rows, return the created clusters, and count the membership rows added before a bad label |
| Analysis.KeywordAnalyzer.AddClusters | app/workers/analysis.py:30-39 | the first loop adds m cluster rows "Cluster 1".."Cluster m", each "mixed" with similarity 0.0, keyed consecutively, and returns them |
| Analysis.KeywordAnalyzer.AddMemberships | app/workers/analysis.py:42-47 | the second loop adds one membership row per zipped pair, pointing at `clusters[label]`, and stops at the first label with no cluster |
| Analysis.ForecastEngine.constructor | app/workers/analysis.py:89-90 | the engine holds the session it was given |
| Analysis.ForecastEngine.PredictKeywordTrends | app/workers/analysis.py:92-130 | a failed query raises; otherwise `None` iff fewer than five rankings of the keyword are stored, else a position ≥ 1, a confidence in [0, 1], and a date `days_ahead` days after now |
| Clustering.Texts | app/workers/analysis.py:19 | one text per keyword, that keyword's `keyword` field |
| Clustering.Below | app/workers/analysis.py:31 | `range(k)` as a set holds exactly the naturals below k |
| Clustering.BelowSize | app/workers/analysis.py:31 | `range(k)` has k elements |
| Clustering.ClusterRecords | app/workers/analysis.py:31-36 | m cluster rows, row i named "Cluster i+1", intent "mixed", similarity 0.0 |
| Clustering.ClustersFrom | app/workers/analysis.py:37-39 | the returned clusters carry consecutive keys from the first key handed out |
| Clustering.FirstOutOfRange | app/workers/analysis.py:42-44 | the first label with no cluster: every earlier label has one, and that one does not |
| Clustering.MembershipRecords | app/workers/analysis.py:42-47 | membership row j links keyword j to the cluster of label j |
| Clustering.MembershipsAdded | app/workers/analysis.py:42-47 | no more membership rows than zipped pairs |
| Clustering.MaterialisedSplit | app/workers/analysis.py:31-47 | the rows written are the numbered cluster rows followed by the numbered membership rows |
| Clustering.PendingAfterBothLoops | app/workers/analysis.py:31-47 | the rows pending after both loops are the earlier rows followed by the materialised rows |
| Clustering.ClusterRowsStep | app/workers/analysis.py:31-38 | one more iteration of the cluster loop appends one numbered cluster row |
| Clustering.MembershipRowsStep | app/workers/analysis.py:42-47 | one more iteration of the membership loop appends one numbered membership row |
| Clustering.DistinctLabelsAtMostLength | app/workers/analysis.py:31 | `len(set(labels)) <= len(labels)` |
| Clustering.DistinctLabelsBelow | app/workers/analysis.py:26-31 | labels below k take at most k distinct values |
| Clustering.ClusterCountBound | app/workers/analysis.py:26-31 | if k-means keeps its contract, at most `n_clusters` clusters are created, and no more than there are keywords |
| Clustering.LabelsFitIffContiguous | app/workers/analysis.py:31-44 | every label has a cluster iff the distinct labels are exactly `0..d-1` |
| Clustering.GapInLabelsRaises | app/workers/analysis.py:31-44 | labels [0, 2, 2] create two clusters and raise at the second keyword, after one membership row |
| Clustering.MaterialisedRows | app/workers/analysis.py:29-47 | when every label fits: m cluster rows, then exactly one membership row per keyword, in input order, pointing at `clusters[label]` |
| Forecasting.Timestamps | app/workers/analysis.py:107 | one timestamp per ranking, in order |
| Forecasting.Positions | app/workers/analysis.py:108 | one position per ranking; 100 when the position is absent or 0 |
| Forecasting.Predict | app/workers/analysis.py:101-130 | `None` iff fewer than five rankings; otherwise a position ≥ 1, a confidence in [0, 1], and a date `days_ahead` days after now |
| Forecasting.Extrapolate | app/workers/analysis.py:120-130 | the prediction is floored at 1 and R² is clamped to [0, 1] |
| Forecasting.TruncAgreesWithFloorAboveOne | app/workers/analysis.py:127 | `max(1, int(x)) == max(1, floor(x))` for every x |
| Forecasting.SumOfConstant | app/workers/analysis.py:115-117 | summing n copies of c gives n·c |
| Forecasting.SumProductsZeroWhenFlat | app/workers/analysis.py:115-117 | the cross sum vanishes when y is constant |
| Forecasting.ResidualsZeroOnLine | app/workers/analysis.py:124 | points on a line leave no residual about that line |
| Forecasting.SumOfAffine | app/workers/analysis.py:115-117 | the sum of `a + b·x` is `n·a + b·Σx` |
| Forecasting.SumProductsOfAffine | app/workers/analysis.py:115-117 | on a line of slope b, the cross sum is b times the spread of x |
| Forecasting.AffineTerm | app/workers/analysis.py:115-117 | for one point on a line of slope b, the cross term is b times the squared term |
| Forecasting.SpreadNonNegative | app/workers/analysis.py:115-117 | the spread of x is never negative |
| Forecasting.SpreadPositive | app/workers/analysis.py:115-117 | the spread of x is positive once one x differs from the centre |
| Forecasting.MeanOfAffine | app/workers/analysis.py:115-117 | the mean of `a + b·x` is `a + b·mean(x)` |
| Forecasting.FitLineOnConstant | app/workers/analysis.py:115-124 | a flat series is fitted by the flat line through it, with R² = 1 |
| Forecasting.SlopeOnLine | app/workers/analysis.py:115-117 | points on a line of slope b, with two distinct x, have least-squares slope b |
| Forecasting.FitLineOnExactLine | app/workers/analysis.py:115-124 | points on `a + b·x`, with two distinct x, are fitted by that line, with R² = 1 |
| Forecasting.ConstantHistoryForecast | app/workers/analysis.py:101-130 | five or more rankings at the same effective position c forecast `max(1, c)` with confidence 1 |
| Forecasting.NeverFoundForecastsHundred | app/workers/analysis.py:101-130 | five or more rankings never found (or at position 0) forecast position 100 with confidence 1 |
| Forecasting.LinearHistoryForecast | app/workers/analysis.py:101-130 | positions exactly on a line in time forecast that line extended to the forecast date, with confidence 1 |
| Forecasting.ExtrapolatePerfectFit | app/workers/analysis.py:121-128 | a perfect fit forecasts `max(1, int(a + b·t))` with confidence 1 |
| Models.Numbered | app/models/models.py:29 | each record gets the next primary key in order |
| Models.NumberedAppend | app/models/models.py:29 | numbering a concatenation numbers the second part from where the first part stops |
| Db.FindKeyword | app/workers/tasks.py:19-21 | finds a keyword with that id iff the catalog has one |
| Db.KeywordsIn | app/workers/tasks.py:94 | the keywords whose id is among the requested ids, and no others |
| Db.RankingsOf | app/workers/analysis.py:97-99 | exactly the stored rankings of that keyword |
| Db.RankingsOfCounts | app/workers/analysis.py:97-101 | the history keeps duplicates: each ranking of the keyword occurs as often as it is stored, so the five-ranking guard counts stored rows |
| Db.RecordsOf | app/workers/analysis.py:97-99 | the records of the stored rows, in order |
| Db.Session.constructor | app/workers/tasks.py:14-15 | a fresh session has nothing pending |
| Db.Session.QueryKeyword | app/workers/tasks.py:19 | the lookup fails iff the session's queries fail; otherwise it finds the catalog's keyword |
| Db.Session.QueryKeywords | app/workers/tasks.py:94 | the query fails iff the session's queries fail; otherwise it returns the selected keywords |
| Db.Session.QueryRankings | app/workers/analysis.py:97-99 | the history query sees committed and pending rows (autoflush) |
| Db.Session.Add | app/workers/analysis.py:37-38 | `add` with a flush appends one pending row under the next key and keeps keys increasing |
| Db.Session.Commit | app/workers/tasks.py:65 | a commit moves every pending row to committed, or fails and moves nothing |
| Db.Session.Rollback | app/workers/tasks.py:72-73 | a rollback discards every pending row; committed rows and keys are untouched |
| Db.Session.Close | app/workers/tasks.py:76-81 | closing the session discards what was never committed |
| Tasks.GoogleRecords | app/workers/tasks.py:32-40 | one `google` ranking row per Google result, in result order |
| Tasks.ScrapeKeywordData | app/workers/tasks.py:9-81 | the collection job reports `ScrapeOutcome`'s result and commits exactly its rows; nothing stays pending |
| Tasks.SaveRankings | app/workers/tasks.py:32-62 | the Google rows, then the AI overview row, then the YouTube row are pending under consecutive keys |
| Tasks.GoogleRowsStep | app/workers/tasks.py:32-40 | one more iteration of the Google loop appends one numbered row |
| Tasks.ScrapeRowsTail | app/workers/tasks.py:32-62 | the numbered rows are the Google rows, then `google_ai`, then `youtube` |
| Tasks.PlatformRowsAppend | app/workers/tasks.py:32-62 | platform row counts add up over concatenation |
| Tasks.GooglePlatformRows | app/workers/tasks.py:32-40 | the Google loop adds exactly one `google` row per result and no other platform |
| Tasks.ScrapeRowsPerPlatform | app/workers/tasks.py:32-62 | a run adds `len(google)+2` rows: one per Google result, exactly one `google_ai` and one `youtube` |
| Tasks.GoogleRowVisibility | app/workers/tasks.py:33-39 | a Google row carries its result's position and url, and visibility `max(0, 100-5·pos)`, which is in [50, 95] for positions 1..10 |
| Tasks.FixedRowsBounded | app/workers/tasks.py:43-62 | the AI row has a position iff the overview was included, and the YouTube row iff any video was found; both visibilities are in [0, 100] |
| Tasks.ScrapeAllOrNothing | app/workers/tasks.py:17-74 | all rows or none are written; success iff the keyword exists and nothing raised; success reports the keyword id and `len(google)+len(videos)` with `len(google)+2` rows; an error before the commit writes nothing |
| Tasks.UnknownKeywordWritesNothing | app/workers/tasks.py:19-21 | an unknown id reports "Keyword not found", adds no row and uses no key |
| Tasks.EmptyScrapersStillSucceed | app/workers/tasks.py:32-70 | with every scraper empty, a `google_ai` and a `youtube` row, both without a position and with visibility 0, are committed, and the job reports success with count 0 |
| Tasks.AnalyzeKeywordCluster | app/workers/tasks.py:84-113 | the clustering job reports `ClusterOutcome`'s result and commits exactly its rows; nothing stays pending |
| Tasks.ClusterOutcomeShape | app/workers/tasks.py:92-106 | success iff the query, the labelling and the commit succeed and every label fits; it then reports `len(clusters)` and has written the materialised rows; an error writes nothing |
| Tasks.ClustersCreatedBound | app/workers/tasks.py:98-102 | a successful job creates at most five clusters and no more than there are keywords, and writes one row per cluster plus one per keyword |
| Tasks.GenerateForecast | app/workers/tasks.py:116-144 | the forecast job writes nothing and reports the engine's 30-day forecast, its warning, or the query error |
| Tasks.ForecastStatus | app/workers/tasks.py:127-134 | "Not enough data for forecast" iff fewer than five rankings; otherwise success with a forecast 30 days ahead, a position ≥ 1 and a confidence in [0, 1] |
| SeoFrame.EmptyFrame | streamlit_app.py:171-172 | the empty result has no rows and exactly the ten fixed column names |
| SeoFrame.LoweredKeysAreLowered | streamlit_app.py:175-188 | the lower-cased alias headers, one per `norm_map` key |
| SeoFrame.NormMapTargetsMatchAlias | streamlit_app.py:175-189 | every `norm_map` header is renamed to its own target |
| SeoFrame.NormMapMatchesAlias | streamlit_app.py:175-189 | headers equal up to case share a target, so the scan order does not change the renaming |
| SeoFrame.LastMatchFinds | streamlit_app.py:187-189 | a target is found iff some header matches up to case, and it is that header's target |
| SeoFrame.LastMatchIsAlias | streamlit_app.py:187-189 | with `norm_map`, the last matching header's target is the column's alias, whichever header matched |
| SeoFrame.BuildFinalMap | streamlit_app.py:184-189 | exactly the columns that some header matches case-insensitively get an entry, and its value is the target of the last such header |
| SeoFrame.ApplyAliases | streamlit_app.py:187-189 | the inner loop sets `final_map[c]` to the target of the last matching header, or leaves the map unchanged |
| SeoFrame.RenameWithFinalMap | streamlit_app.py:184-191 | renaming with the built `final_map` gives every column its canonical name |
| SeoFrame.RenameColumns | streamlit_app.py:191 | renaming keeps the row count, column order and cells |
| SeoFrame.RenameMatchesAliasTable | streamlit_app.py:175-191 | a column is renamed to `v` iff its lower-cased name matches a `norm_map` key with target `v`; unmatched columns keep their name |
| SeoFrame.DefaultCells | streamlit_app.py:194-213 | a synthesised column has one cell per row |
| SeoFrame.MissingColumns | streamlit_app.py:208-213 | each added column is a required name the frame lacked, filled with its default |
| SeoFrame.RequiredNamesDistinct | streamlit_app.py:194-206 | the eleven required names are distinct |
| SeoFrame.SynthesiseRequired | streamlit_app.py:208-213 | the loop over `required` returns `Synthesised(t)` |
| SeoFrame.SynthesisStep | streamlit_app.py:208-213 | a required name is added in its round iff the original frame lacks it |
| SeoFrame.MissingColumnsCover | streamlit_app.py:208-213 | each required name is either present already or among the added columns |
| SeoFrame.SynthesisedShape | streamlit_app.py:194-213 | all eleven required columns exist; existing columns come first and are untouched; added ones carry their fixed default |
| SeoFrame.SynthesisedNames | streamlit_app.py:208-213 | after synthesis every required name is a column name |
| SeoFrame.RowLabelsDistinct | streamlit_app.py:195 | distinct rows get distinct "Keyword i" labels |
| SeoFrame.MissingKeywordGetsRowLabels | streamlit_app.py:195-211 | a missing keyword column is added holding "Keyword " + row index |
| SeoFrame.DotIndex | streamlit_app.py:219 | the position of the first decimal point, or the length |
| SeoFrame.CoerceCells | streamlit_app.py:219 | each cell becomes the number it spells, or 0 |
| SeoFrame.CoerceCellsIdempotent | streamlit_app.py:219 | cleaning twice is the same as cleaning once |
| SeoFrame.IndexOf | streamlit_app.py:218-219 | the first column with that name |
| SeoFrame.CoerceAll | streamlit_app.py:216-219 | target columns are coerced, the others are untouched, and the order is kept |
| SeoFrame.CoerceNumeric | streamlit_app.py:216-219 | the cleaning loop returns the coerced frame, or `to_numeric`'s TypeError for a target held by two columns |
| SeoFrame.CoerceAllShape | streamlit_app.py:216-219 | cleaning renames nothing and keeps one cell per row |
| SeoFrame.SetColumn | streamlit_app.py:211-250 | assigning a column keeps the row count |
| SeoFrame.SetUniqueColumn | streamlit_app.py:219 | overwriting a column that occurs once changes only that column |
| SeoFrame.SetColumnShape | streamlit_app.py:211-250 | `df[name] = cells` keeps every other column, leaves `name` holding `cells`, and appends at most one column |
| SeoFrame.SetColumnWritesOnly | streamlit_app.py:211-250 | an assignment writes its own name only |
| SeoFrame.WritesOnlyChain | streamlit_app.py:232-250 | the names written by successive assignments add up |
| SeoFrame.ClusterCells | streamlit_app.py:232 | one cluster cell per row |
| SeoFrame.SegmentCells | streamlit_app.py:233-234 | one segment cell per row |
| SeoFrame.GeneralCells | streamlit_app.py:236-238 | one "General" cell per row |
| SeoFrame.SegmentedShape | streamlit_app.py:222-238 | segmentation keeps the rows, one cell per row, and every column name |
| SeoFrame.SegmentedWritesOnly | streamlit_app.py:222-238 | segmentation writes "Cluster" and "Market Segment" and nothing else |
| SeoFrame.SegmentedColumns | streamlit_app.py:227-238 | "General" on every row when there are at most five rows or the block raised; otherwise the k-means labels and their segments |
| SeoFrame.EntityStrength | streamlit_app.py:250 | Entity Strength is in [0, 100]; it is NaN exactly at KD = -1 with volume 0 |
| SeoFrame.OpportunityCells | streamlit_app.py:242 | one Opportunity Score per row |
| SeoFrame.DecayCells | streamlit_app.py:246 | every Decay Risk is a number in [0, 100] |
| SeoFrame.EntityCells | streamlit_app.py:250 | every Entity Strength is in [0, 100] or NaN |
| SeoFrame.OpportunityBounds | streamlit_app.py:242 | for KD in [0, 100] and volume ≥ 0, the Opportunity Score is in [0, volume] and does not increase with KD |
| SeoFrame.ColumnCellsHeight | streamlit_app.py:242-250 | a column of a well-formed frame has one cell per row |
| SeoFrame.SynthesisedHasScoreInputs | streamlit_app.py:194-250 | synthesis supplies every column the scores read |
| SeoFrame.BeforeScores | streamlit_app.py:191-238 | the frame reaching the scores has their inputs, the original row count, and one cell per row |
| SeoFrame.SameFirstColumn | streamlit_app.py:242-250 | reading a column gives the same cells in two frames that agree up to its first occurrence |
| SeoFrame.SetColumnHolds | streamlit_app.py:242-250 | after an assignment the column holds the assigned cells |
| SeoFrame.WritesOnlyKeeps | streamlit_app.py:222-250 | columns not written keep their cells |
| SeoFrame.DerivedWritesOnly | streamlit_app.py:242-250 | the score assignments write the three score columns and nothing else |
| SeoFrame.DerivedScoreCells | streamlit_app.py:242-250 | each score column holds its formula applied row by row to Volume, Keyword Difficulty and AI Overview |
| SeoFrame.DerivedWellFormed | streamlit_app.py:242-250 | the scores keep one cell per row |
| SeoFrame.ScoresAfterSegment | streamlit_app.py:222-250 | segmentation plus scores write only the five derived names and keep the shape |
| SeoFrame.SegmentsSurviveScores | streamlit_app.py:236-250 | the score assignments leave the segment columns as they were |
| SeoFrame.ScoresFromOwnColumns | streamlit_app.py:242-250 | each score is its formula over the frame's own input columns |
| SeoFrame.ScoreInputsAreNumbers | streamlit_app.py:216-250 | after cleaning, the scores read numbers only |
| SeoFrame.ScoreInputsKept | streamlit_app.py:242-250 | a column the scores read is the same after they are written |
| SeoFrame.SegmentNamesAreNotScores | streamlit_app.py:234-250 | no score overwrites a segment column |
| SeoFrame.InputsAreNotScores | streamlit_app.py:242-250 | no score overwrites one of its inputs |
| SeoFrame.MissingColumnsDistinct | streamlit_app.py:208-213 | the synthesised columns have distinct names |
| SeoFrame.SynthesisedDuplicated | streamlit_app.py:208-213 | synthesis never duplicates a name: a name is held twice afterwards iff it was before |
| SeoFrame.WrittenColumnsKept | streamlit_app.py:216-250 | the cleaned columns survive segmentation and scoring under their canonical names |
| SeoFrame.CleanedShape | streamlit_app.py:184-219 | after cleaning: same rows, the input columns first under canonical names, all required columns, and numeric targets holding numbers only |
| SeoFrame.Process | streamlit_app.py:170-252 | an empty input gives the ten-column empty frame |
| SeoFrame.AddSegment | streamlit_app.py:222-238 | the clustering block returns the segmented frame |
| SeoFrame.AddScores | streamlit_app.py:242-250 | the three assignments return the scored frame |
| SeoFrame.ProcessSeoDataframe | streamlit_app.py:170-252 | the step-by-step procedure returns `Process(df, labelling)` |
| SeoFrame.ProcessFails | streamlit_app.py:170-219 | it raises iff the input is non-empty and, after renaming, a numeric target is held by two columns; the error is `to_numeric`'s TypeError |
| SeoFrame.ProcessKeepsColumns | streamlit_app.py:184-252 | row count kept; input columns first under canonical names, cleaned if numeric targets, otherwise untouched; all eleven required columns present; numeric targets hold numbers only |
| SeoFrame.ProcessValue | streamlit_app.py:184-252 | unfolds `Process` on an accepted non-empty input into the cleaned frame, segmented and scored; a bridge for the lemmas above, not a property of its own |
| SeoFrame.ProcessSegments | streamlit_app.py:227-238 | "Market Segment" is "General" on every row when the frame has at most five rows or clustering raised; otherwise it is the segment of each row's label |
| SeoFrame.ProcessScores | streamlit_app.py:242-250 | the result's three scores are their formulas over its own numeric Volume, Keyword Difficulty and AI Overview columns |
| SeoFrame.ParseNumberOfNatToString | streamlit_app.py:219 | `to_numeric` reads `str(n)` and `"-" + str(n)` back as ±n |
| SeoFrame.UnsignedOfNatToString | streamlit_app.py:219 | `str(n)` is read back as the unsigned number n |
| SeoFrame.NonNumericTextBecomesZero | streamlit_app.py:219 | text holding a character that is not a digit, point or sign is cleaned to 0 |
| SeoFrame.UnsignedRejects | streamlit_app.py:219 | a non-digit, non-point character makes an unsigned decimal unreadable |
| Dashboard.Cut | streamlit_app.py:1587 | `pd.cut` names a right-closed bin holding x, or gives NaN when no bin holds it |
| Dashboard.CutFindsTheBin | streamlit_app.py:1587 | with increasing edges, `pd.cut` names exactly the bin holding x |
| Dashboard.Quadrants | streamlit_app.py:1587 | one quadrant per row, each the quadrant of that row's difficulty |
| Dashboard.QuadrantIntervals | streamlit_app.py:1587 | (-1, 30] is "Quick Wins", (30, 70] "Standard Competition", (70, 101] "High Effort", anything else "nan", all as iffs |
| Dashboard.CleanedDifficultyHasQuadrant | streamlit_app.py:1587 | every difficulty in [0, 100] gets one of the three labels |
| Dashboard.RunLength | streamlit_app.py:1127 | the maximal run of `\w` characters at the start |
| Dashboard.Tokens | streamlit_app.py:1127 | `re.findall(r'\w+')` gives non-empty runs of word characters |
| Dashboard.WordCharsOfRun | streamlit_app.py:1127 | the word characters of a text that starts with a run |
| Dashboard.TokensCoverWordChars | streamlit_app.py:1127 | the tokens hold exactly the text's word characters, in order |
| Dashboard.GapsRebuildText | streamlit_app.py:1127 | the text is its tokens with the gaps between them, in order |
| Dashboard.GapsHaveNoWordChars | streamlit_app.py:1127 | no gap holds a `\w` character |
| Dashboard.GapsSeparateTokens | streamlit_app.py:1127 | consecutive tokens are separated by at least one non-word character |
| Dashboard.TokensAreMaximal | streamlit_app.py:1127 | `findall(r'\w+')` returns maximal runs: no run of word characters is split or dropped |
| Dashboard.TokensAreSubstrings | streamlit_app.py:1127 | every token character comes from the text |
| Dashboard.Words | streamlit_app.py:1127 | the words are lower-cased |
| Dashboard.Filtered | streamlit_app.py:1130-1131 | every kept word is outside the stop-word set and longer than three characters |
| Dashboard.FilteredCounts | streamlit_app.py:1131 | the filter keeps every occurrence of a kept word and no other word |
| Dashboard.Distinct | streamlit_app.py:1133 | each word once, and every word of the input |
| Dashboard.Counted | streamlit_app.py:1133 | `Counter` pairs each distinct word with its exact number of occurrences |
| Dashboard.CountedFacts | streamlit_app.py:1133 | each counted word occurs in the input, once in the table, with its exact count ≥ 1 |
| Dashboard.CountedCovers | streamlit_app.py:1133 | every input word is counted |
| Dashboard.Insert | streamlit_app.py:1133 | inserting adds exactly one entry |
| Dashboard.InsertDescending | streamlit_app.py:1133 | inserting keeps counts non-increasing |
| Dashboard.SortByCount | streamlit_app.py:1133 | the sort is a permutation with non-increasing counts |
| Dashboard.Prefix | streamlit_app.py:1133 | `[:n]` keeps the first min(n, len) entries |
| Dashboard.SortedWordsDistinct | streamlit_app.py:1133 | sorting keeps each word once |
| Dashboard.SortedPrefix | streamlit_app.py:1133 | a prefix of the sorted counts keeps exact counts, distinct words and the order |
| Dashboard.MostCommonSpec | streamlit_app.py:1133 | `most_common(n)` has min(n, #distinct) entries, each a word of the input with its exact count, no word twice, counts non-increasing |
| Dashboard.MostCommonLeavesOutLess | streamlit_app.py:1133 | a word left out occurs no more often than the last listed one, and all n places are taken |
| Dashboard.LeftOutOfPrefix | streamlit_app.py:1133 | an entry missing from a sorted prefix comes after it, with no larger count |
| Dashboard.CommonKeywordsSpec | streamlit_app.py:1127-1133 | at most ten entries, each a lower-cased page word outside the stop words and longer than three characters, with its exact count; counts non-increasing |
| Common.Clip | streamlit_app.py:246-250 | `clip(lo, hi)` lands in [lo, hi] and keeps values already inside |
| Common.Lower | app/workers/analysis.py:69 | `lower()` maps each character and keeps the length |
| Common.NatToString | streamlit_app.py:195 | `str(n)` is a non-empty string of digits |
| Common.DigitsValueOfNatToString | streamlit_app.py:195 | reading back `str(n)` gives n |

## Left out

- Scrapers (`app/workers/scrapers.py`): HTTP, BeautifulSoup and Selenium are not modelled. Their results are inputs (`ScraperOutputs`). Any exception they raise is one optional message.
- TF-IDF, k-means and StandardScaler: not modelled. The labels they produce, or the exception they raise, are inputs to `ClusterKeywords`, `AnalyzeKeywordCluster` and `Segmented`.
- `LinearRegression`: replaced by its closed form (ordinary least squares with an intercept, and `score` as R²) over reals. Numerical error is not modelled.
- `order_by(Ranking.timestamp.desc())`: the query returns rankings in storage order. The least-squares fit does not depend on the order of the points.
- `datetime.now()`: replaced by a parameter `now` in seconds. A `datetime` plus `timedelta` is modelled as `now + days·86400`.
- Tasks.GoogleRanking, Tasks.AiRanking and Tasks.YoutubeRanking stamp every row with the run's `now`, and Forecasting.Timestamps reads those values back as seconds on the same clock as the forecast's `now`. In the code the rows are stamped by `datetime.utcnow` (app/models/models.py:35), a naive UTC value that `timestamp()` (app/workers/analysis.py:107) reads as local time, while the future point comes from `datetime.now().timestamp()` (analysis.py:120), true epoch time. On a server whose time zone is not UTC the history is shifted against the future point by the UTC offset, and the predicted position moves by slope × offset. The model does not capture this.
- Forecasting.Predict reads the clock once. The code reads it twice, at analysis.py:120 and :129, so the forecast date can differ from the prediction point by the time between the two reads.
- Floating point: all decimal quantities are reals. Rounding, overflow and NaN propagation are not modelled, except where NaN is the value (Entity Strength at KD = -1, the "nan" quadrant).
- `.round(2)` and `.round(1)` on the derived scores: not modelled.
- SeoFrame.EntityStrength: at KD = -1 there is no precondition. The infinity that `clip` turns into 0 or 100, and the NaN of 0/0, are modelled as such.
- SeoFrame.ParseNumber: accepts optionally signed decimals with at most one point. Exponents, surrounding whitespace, "inf", "nan" and thousands separators are not recognised, whereas `pd.to_numeric` accepts some of them.
- Common.Lower: changes only ASCII letters. Dashboard.WordChar matches ASCII `\w` only; Python's Unicode `\w` and `lower()` are wider.
- Row labels: "Keyword " + row index assumes the default RangeIndex of a freshly read CSV.
- Duplicate column names in the uploaded frame: only the renaming, synthesis and `to_numeric` TypeError paths are modelled. `SetColumn` overwrites every column of that name, and further pandas behaviour with duplicates is not modelled.
- Dashboard.SortByCount: proved a permutation with non-increasing counts. That ties keep their first-occurrence order (what `most_common` does) is not stated in a lemma.
- Db.KeywordsIn returns the selected keywords in catalog order. `filter(Keyword.id.in_(ids)).all()` (app/workers/tasks.py:94) has no ORDER BY, so the database decides the order, and with it the order and keys of the membership rows.
- Db.Session.Add hands out a primary key at every add, as if flushed. The collection job adds without flushing (app/workers/tasks.py:32-62), so there the keys come from the flush inside `commit`, and `ScrapeOutcome` counts keys as used even when the commit fails. Whether keys are reused after a rollback depends on the database.
- Integer widths: primary keys and positions are unbounded naturals and integers.
- `get_db()` (app/database/database.py is not part of this model): the generator's cleanup is modelled by `Session.Close`, which discards pending rows.
- Concurrency between Celery workers, and task dispatch: each task is one sequential call on its own session.
- The rest of `streamlit_app.py` (rendering, charts, simulated data, sqlite storage, live fetches), the FastAPI routes, the schemas and the React frontend: not modelled.
