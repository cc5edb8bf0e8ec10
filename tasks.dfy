/**
 * The three background jobs. Each runs in a fresh database session (nothing pending),
 * changes it step by step, reports a status record and closes the session. The
 * scrapers, the k-means labelling and the clock are inputs.
 */
module Tasks {
  import opened Common
  import opened Models
  import opened Db
  import opened Visibility
  import opened Clustering
  import opened Forecasting
  import opened Analysis

  /** The dictionary a job returns, one constructor per shape it can take. */
  datatype TaskResult =
    | Failed(message: string)
    | Scraped(keywordId: int, resultsCount: nat)
    | Clustered(clustersCreated: nat)
    | Forecasted(keywordId: int, forecast: ForecastData)
    | Warned(message: string)

  /** The `"status"` entry of the returned dictionary. */
  function Status(r: TaskResult): string
  {
    match r
    case Failed(_) => "error"
    case Warned(_) => "warning"
    case _ => "success"
  }

  const KeywordNotFound: string := "Keyword not found"
  const NotEnoughData: string := "Not enough data for forecast"

  /** One organic Google result: its 1-based position and the link's `href`, if any. */
  datatype SearchResult = SearchResult(position: int, url: Option<string>)

  /**
   * What the scrapers give a collection run: the exception raised while building them
   * (the headless browser may fail to start), the Google results, whether an AI
   * overview was found, how many videos YouTube listed, and the exception raised when
   * the browser is shut down.
   */
  datatype ScraperOutputs = ScraperOutputs(
    setupError: Option<string>,
    google: seq<SearchResult>,
    aiIncluded: bool,
    videoCount: nat,
    closeError: Option<string>)

  /** The `"google"` ranking saved for one search result. */
  function GoogleRanking(keywordId: int, result: SearchResult, now: real): Ranking
  {
    Ranking(keywordId, "google", Some(result.position), RawScore(result.position) as real, result.url, now)
  }

  /** The `"google_ai"` ranking: position 1 and visibility 90 when the overview is there. */
  function AiRanking(keywordId: int, included: bool, now: real): Ranking
  {
    Ranking(keywordId, "google_ai", if included then Some(1) else None, if included then 90.0 else 0.0, None, now)
  }

  /** The `"youtube"` ranking: position 1 when any video was found, visibility `min(100, 10 * count)`. */
  function YoutubeRanking(keywordId: int, videoCount: nat, now: real): Ranking
  {
    Ranking(keywordId, "youtube", if videoCount > 0 then Some(1) else None,
      MinReal(100.0, (10 * videoCount) as real), None, now)
  }

  /** The rows of the Google loop, in result order. */
  function GoogleRecords(keywordId: int, google: seq<SearchResult>, now: real): (records: seq<Record>)
    ensures |records| == |google|
    ensures forall i :: 0 <= i < |google| ==> records[i] == RankingRecord(GoogleRanking(keywordId, google[i], now))
  {
    seq(|google|, i requires 0 <= i < |google| => RankingRecord(GoogleRanking(keywordId, google[i], now)))
  }

  /** Everything a collection run adds, in the order it adds it. */
  function ScrapeRecords(keywordId: int, out: ScraperOutputs, now: real): seq<Record>
  {
    GoogleRecords(keywordId, out.google, now)
    + [RankingRecord(AiRanking(keywordId, out.aiIncluded, now)),
       RankingRecord(YoutubeRanking(keywordId, out.videoCount, now))]
  }

  /**
   * What a job leaves behind: the result it reports, the rows it commits (keyed from
   * the session's next key), and how many keys it used up.
   */
  datatype Outcome = Outcome(result: TaskResult, written: seq<Row>, used: nat)

  /** The outcome of `scrape_keyword_data`, given what the keyword query returned. */
  function ScrapeOutcome(query: Result<Option<Keyword>>, keywordId: int, out: ScraperOutputs,
                         commitError: Option<string>, start: nat, now: real): Outcome
  {
    match query
    case Err(e) => Outcome(Failed(e), [], 0)
    case Ok(None) => Outcome(Failed(KeywordNotFound), [], 0)
    case Ok(Some(keyword)) =>
      if out.setupError.Some? then Outcome(Failed(out.setupError.value), [], 0)
      else
        var records := ScrapeRecords(keyword.id, out, now);
        if commitError.Some? then Outcome(Failed(commitError.value), [], |records|)
        else if out.closeError.Some? then Outcome(Failed(out.closeError.value), Numbered(start, records), |records|)
        else Outcome(Scraped(keywordId, |out.google| + out.videoCount), Numbered(start, records), |records|)
  }

  /** The outcome of `analyze_keyword_cluster`, given the keyword query and the labelling. */
  function ClusterOutcome(query: Result<seq<Keyword>>, labelling: Result<seq<nat>>,
                          commitError: Option<string>, start: nat): Outcome
  {
    match query
    case Err(e) => Outcome(Failed(e), [], 0)
    case Ok(keywords) =>
      match labelling
      case Err(e) => Outcome(Failed(e), [], 0)
      case Ok(labels) =>
        var rows := Materialised(start, keywords, labels, DefaultClusterCount);
        if !LabelsFit(keywords, labels, DefaultClusterCount) then Outcome(Failed(IndexErrorMessage), [], |rows|)
        else if commitError.Some? then Outcome(Failed(commitError.value), [], |rows|)
        else Outcome(Clustered(ClusterCount(DefaultClusterCount, labels)), rows, |rows|)
  }

  /** The result of `generate_forecast`, given what the engine returned or raised. */
  function ForecastResult(prediction: Result<Option<ForecastData>>, keywordId: int): TaskResult
  {
    match prediction
    case Err(e) => Failed(e)
    case Ok(None) => Warned(NotEnoughData)
    case Ok(Some(forecast)) => Forecasted(keywordId, forecast)
  }

  /** `scrape_keyword_data(keyword_id)`: collect, save and commit, or roll back and report the error. */
  method ScrapeKeywordData(db: Session, keywordId: int, out: ScraperOutputs, now: real)
    returns (result: TaskResult)
    requires db.Valid() && db.pending == []
    modifies db
    ensures db.Valid() && db.pending == []
    ensures var o := ScrapeOutcome(db.QueryKeyword(keywordId), keywordId, out, db.commitError, old(db.nextId), now);
      && result == o.result
      && db.committed == old(db.committed) + o.written
      && db.nextId == old(db.nextId) + o.used
  {
    var query := db.QueryKeyword(keywordId);
    if query.Err? {
      db.Close();
      return Failed(query.error);
    }
    if query.value.None? {
      db.Close();
      return Failed(KeywordNotFound);
    }
    var keyword := query.value.value;
    if out.setupError.Some? {
      db.Rollback();
      db.Close();
      return Failed(out.setupError.value);
    }
    SaveRankings(db, keyword.id, out, now);
    var failure := db.Commit();
    if failure.Some? {
      db.Rollback();
      db.Close();
      return Failed(failure.value);
    }
    if out.closeError.Some? {
      db.Rollback();
      db.Close();
      return Failed(out.closeError.value);
    }
    db.Close();
    return Scraped(keywordId, |out.google| + out.videoCount);
  }

  /** The rows of one collection run: a `"google"` row per result, then `"google_ai"`, then `"youtube"`. */
  method SaveRankings(db: Session, keywordId: int, out: ScraperOutputs, now: real)
    requires db.Valid() && db.pending == []
    modifies db
    ensures db.Valid() && db.committed == old(db.committed)
    ensures db.pending == Numbered(old(db.nextId), ScrapeRecords(keywordId, out, now))
    ensures db.nextId == old(db.nextId) + |ScrapeRecords(keywordId, out, now)|
  {
    var start := db.nextId;
    var i := 0;
    while i < |out.google|
      invariant 0 <= i <= |out.google|
      invariant db.Valid()
      invariant db.nextId == start + i && db.committed == old(db.committed)
      invariant db.pending == Numbered(start, GoogleRecords(keywordId, out.google[..i], now))
    {
      var record := RankingRecord(GoogleRanking(keywordId, out.google[i], now));
      var _ := db.Add(record);
      GoogleRowsStep(start, keywordId, out.google, i, now);
      i := i + 1;
    }
    assert out.google[..i] == out.google;
    var ai := RankingRecord(AiRanking(keywordId, out.aiIncluded, now));
    var _ := db.Add(ai);
    var youtube := RankingRecord(YoutubeRanking(keywordId, out.videoCount, now));
    var _ := db.Add(youtube);
    ScrapeRowsTail(start, keywordId, out, now);
  }

  /** One more Google result: one more numbered row at the end. */
  lemma GoogleRowsStep(start: nat, keywordId: int, google: seq<SearchResult>, i: nat, now: real)
    requires i < |google|
    ensures Numbered(start, GoogleRecords(keywordId, google[..i + 1], now))
      == Numbered(start, GoogleRecords(keywordId, google[..i], now))
         + [Row(start + i, RankingRecord(GoogleRanking(keywordId, google[i], now)))]
  {
    var record := RankingRecord(GoogleRanking(keywordId, google[i], now));
    assert GoogleRecords(keywordId, google[..i + 1], now) == GoogleRecords(keywordId, google[..i], now) + [record];
    NumberedAppend(start, GoogleRecords(keywordId, google[..i], now), [record]);
  }

  /** The numbered rows of a run: the Google rows, then the overview row, then the video row. */
  lemma ScrapeRowsTail(start: nat, keywordId: int, out: ScraperOutputs, now: real)
    ensures var n := |out.google|;
      Numbered(start, ScrapeRecords(keywordId, out, now))
        == Numbered(start, GoogleRecords(keywordId, out.google, now))
           + [Row(start + n, RankingRecord(AiRanking(keywordId, out.aiIncluded, now)))]
           + [Row(start + n + 1, RankingRecord(YoutubeRanking(keywordId, out.videoCount, now)))]
  {
    var google := GoogleRecords(keywordId, out.google, now);
    var ai := RankingRecord(AiRanking(keywordId, out.aiIncluded, now));
    var youtube := RankingRecord(YoutubeRanking(keywordId, out.videoCount, now));
    NumberedAppend(start, google, [ai]);
    NumberedAppend(start, google + [ai], [youtube]);
    assert ScrapeRecords(keywordId, out, now) == google + [ai] + [youtube];
  }

  /**
   * `analyze_keyword_cluster(keyword_ids)`: cluster the selected keywords with the default
   * five clusters, commit, and report how many clusters were created. `labelling` is what
   * TF-IDF and k-means produce for the selected keywords, or the exception they raise.
   */
  method AnalyzeKeywordCluster(db: Session, keywordIds: seq<int>, labelling: Result<seq<nat>>)
    returns (result: TaskResult)
    requires db.Valid() && db.pending == []
    modifies db
    ensures db.Valid() && db.pending == []
    ensures var o := ClusterOutcome(db.QueryKeywords(keywordIds), labelling, db.commitError, old(db.nextId));
      && result == o.result
      && db.committed == old(db.committed) + o.written
      && db.nextId == old(db.nextId) + o.used
  {
    var query := db.QueryKeywords(keywordIds);
    if query.Err? {
      db.Close();
      return Failed(query.error);
    }
    var keywords := query.value;
    var analyzer := new KeywordAnalyzer(db);
    var clusters := analyzer.ClusterKeywords(keywords, DefaultClusterCount, labelling);
    if clusters.Err? {
      db.Rollback();
      db.Close();
      return Failed(clusters.error);
    }
    // The second `db.commit()` has nothing left to write and cannot fail where the first succeeded.
    var _ := db.Commit();
    assert db.committed == old(db.committed) + Materialised(old(db.nextId), keywords, labelling.value, DefaultClusterCount);
    db.Close();
    return Clustered(|clusters.value|);
  }

  /** `generate_forecast(keyword_id)`: forecast 30 days ahead; nothing is written. */
  method GenerateForecast(db: Session, keywordId: int, now: real) returns (result: TaskResult)
    requires db.Valid() && db.pending == []
    modifies db
    ensures db.Valid() && db.pending == [] && db.committed == old(db.committed) && db.nextId == old(db.nextId)
    ensures result == ForecastResult(
      if db.queryError.Some? then Err(db.queryError.value)
      else Ok(Predict(RankingsOf(db.committed, keywordId), now, DefaultDaysAhead)),
      keywordId)
  {
    var engine := new ForecastEngine(db);
    assert db.committed + db.pending == db.committed;
    var prediction := engine.PredictKeywordTrends(keywordId, DefaultDaysAhead, now);
    db.Close();
    return ForecastResult(prediction, keywordId);
  }

  /** How many of `records` are rankings on `platform`. */
  function PlatformRows(records: seq<Record>, platform: string): nat
  {
    if records == [] then 0
    else
      var first := if records[0].RankingRecord? && records[0].ranking.platform == platform then 1 else 0;
      first + PlatformRows(records[1..], platform)
  }

  lemma {:induction false} PlatformRowsAppend(front: seq<Record>, back: seq<Record>, platform: string)
    ensures PlatformRows(front + back, platform) == PlatformRows(front, platform) + PlatformRows(back, platform)
  {
    if front == [] {
      assert front + back == back;
    } else {
      assert (front + back)[1..] == front[1..] + back;
      PlatformRowsAppend(front[1..], back, platform);
    }
  }

  lemma {:induction false} GooglePlatformRows(keywordId: int, google: seq<SearchResult>, now: real, platform: string)
    ensures PlatformRows(GoogleRecords(keywordId, google, now), platform) == if platform == "google" then |google| else 0
  {
    if google != [] {
      assert GoogleRecords(keywordId, google, now)[1..] == GoogleRecords(keywordId, google[1..], now);
      GooglePlatformRows(keywordId, google[1..], now, platform);
    }
  }

  /**
   * A collection run adds one `"google"` row per Google result, exactly one `"google_ai"`
   * row and exactly one `"youtube"` row, so `len(google_results) + 2` rows in all.
   */
  lemma ScrapeRowsPerPlatform(keywordId: int, out: ScraperOutputs, now: real)
    ensures var records := ScrapeRecords(keywordId, out, now);
      && |records| == |out.google| + 2
      && PlatformRows(records, "google") == |out.google|
      && PlatformRows(records, "google_ai") == 1
      && PlatformRows(records, "youtube") == 1
  {
    var google := GoogleRecords(keywordId, out.google, now);
    var tail := [RankingRecord(AiRanking(keywordId, out.aiIncluded, now)),
                 RankingRecord(YoutubeRanking(keywordId, out.videoCount, now))];
    assert tail[1..][1..] == [];
    assert PlatformRows(tail[1..], "google") == 0 && PlatformRows(tail, "google") == 0;
    assert PlatformRows(tail[1..], "google_ai") == 0 && PlatformRows(tail, "google_ai") == 1;
    assert PlatformRows(tail[1..], "youtube") == 1 && PlatformRows(tail, "youtube") == 1;
    assert ScrapeRecords(keywordId, out, now) == google + tail;
    PlatformRowsAppend(google, tail, "google");
    PlatformRowsAppend(google, tail, "google_ai");
    PlatformRowsAppend(google, tail, "youtube");
    GooglePlatformRows(keywordId, out.google, now, "google");
    GooglePlatformRows(keywordId, out.google, now, "google_ai");
    GooglePlatformRows(keywordId, out.google, now, "youtube");
  }

  /**
   * Every Google row carries its result's position and link, and the visibility
   * `max(0, 100 - 5 * position)` the scorer also starts from; for the scraper's
   * positions 1..10 that is between 50 and 95.
   */
  lemma GoogleRowVisibility(keywordId: int, result: SearchResult, now: real)
    requires 1 <= result.position <= 10
    ensures var r := GoogleRanking(keywordId, result, now);
      && r.platform == "google" && r.position == Some(result.position) && r.url == result.url
      && Contributes(r) && r.visibilityScore == RawScore(result.position) as real
      && 50.0 <= r.visibilityScore <= 95.0
  {
  }

  /** The AI and YouTube rows never score above 100. */
  lemma FixedRowsBounded(keywordId: int, out: ScraperOutputs, now: real)
    ensures 0.0 <= AiRanking(keywordId, out.aiIncluded, now).visibilityScore <= 100.0
    ensures 0.0 <= YoutubeRanking(keywordId, out.videoCount, now).visibilityScore <= 100.0
    ensures YoutubeRanking(keywordId, out.videoCount, now).position.Some? <==> out.videoCount > 0
    ensures AiRanking(keywordId, out.aiIncluded, now).position.Some? <==> out.aiIncluded
  {
  }

  /**
   * A collection run writes everything or nothing. It reports success only when the
   * keyword exists and every row of the run was committed, and then it counts the
   * Google results and the videos. Every error raised before the commit leaves the
   * database as it was.
   */
  lemma ScrapeAllOrNothing(query: Result<Option<Keyword>>, keywordId: int, out: ScraperOutputs,
                           commitError: Option<string>, start: nat, now: real)
    ensures var o := ScrapeOutcome(query, keywordId, out, commitError, start, now);
      && (o.written == [] || (query.Ok? && query.value.Some?
            && o.written == Numbered(start, ScrapeRecords(query.value.value.id, out, now))))
      && (Status(o.result) == "success" <==>
            query.Ok? && query.value.Some? && out.setupError.None? && commitError.None? && out.closeError.None?)
      && (Status(o.result) == "success" ==>
            o.result == Scraped(keywordId, |out.google| + out.videoCount) && |o.written| == |out.google| + 2)
      && (o.result.Failed? && out.closeError.None? ==> o.written == [])
      && (Status(o.result) != "warning")
  {
    match query
    case Err(_) =>
    case Ok(None) =>
    case Ok(Some(keyword)) =>
      ScrapeRowsPerPlatform(keyword.id, out, now);
  }

  /** An unknown keyword id reports "Keyword not found" and adds no row. */
  lemma UnknownKeywordWritesNothing(catalog: seq<Keyword>, keywordId: int, out: ScraperOutputs,
                                    commitError: Option<string>, start: nat, now: real)
    requires forall i :: 0 <= i < |catalog| ==> catalog[i].id != keywordId
    ensures ScrapeOutcome(Ok(FindKeyword(catalog, keywordId)), keywordId, out, commitError, start, now)
      == Outcome(Failed(KeywordNotFound), [], 0)
  {
  }

  /**
   * With every scraper empty the run still commits a `"google_ai"` row and a
   * `"youtube"` row, both without position and with visibility 0, and reports success.
   */
  lemma EmptyScrapersStillSucceed(keyword: Keyword, keywordId: int, start: nat, now: real)
    ensures ScrapeOutcome(Ok(Some(keyword)), keywordId, ScraperOutputs(None, [], false, 0, None), None, start, now)
      == Outcome(Scraped(keywordId, 0),
           [Row(start, RankingRecord(Ranking(keyword.id, "google_ai", None, 0.0, None, now))),
            Row(start + 1, RankingRecord(Ranking(keyword.id, "youtube", None, 0.0, None, now)))],
           2)
  {
    var ai := RankingRecord(Ranking(keyword.id, "google_ai", None, 0.0, None, now));
    var youtube := RankingRecord(Ranking(keyword.id, "youtube", None, 0.0, None, now));
    assert AiRanking(keyword.id, false, now) == ai.ranking;
    assert YoutubeRanking(keyword.id, 0, now) == youtube.ranking;
    assert GoogleRecords(keyword.id, [], now) == [];
    var records := ScrapeRecords(keyword.id, ScraperOutputs(None, [], false, 0, None), now);
    assert records == [ai, youtube];
    var rows := Numbered(start, records);
    assert rows == [Row(start, ai), Row(start + 1, youtube)];
  }

  /**
   * The clustering job reports success only when the query and the labelling succeeded,
   * every label had a cluster and the commit went through; it then reports the number
   * of clusters created and has committed exactly the materialised rows. Any error
   * leaves the database as it was.
   */
  lemma ClusterOutcomeShape(query: Result<seq<Keyword>>, labelling: Result<seq<nat>>,
                            commitError: Option<string>, start: nat)
    ensures var o := ClusterOutcome(query, labelling, commitError, start);
      && (o.result.Failed? <==> !o.result.Clustered?)
      && (o.result.Failed? ==> o.written == [])
      && (o.result.Clustered? <==>
            query.Ok? && labelling.Ok? && LabelsFit(query.value, labelling.value, DefaultClusterCount) && commitError.None?)
      && (o.result.Clustered? ==>
            o.result.clustersCreated == ClusterCount(DefaultClusterCount, labelling.value)
            && o.written == Materialised(start, query.value, labelling.value, DefaultClusterCount))
  {
  }

  /**
   * When k-means keeps its contract (one label per keyword, below the k it was given), a
   * successful clustering job creates at most five clusters and no more than there are
   * keywords, and writes one row per cluster plus one membership row per keyword.
   */
  lemma ClustersCreatedBound(keywords: seq<Keyword>, labels: seq<nat>, commitError: Option<string>, start: nat)
    requires |labels| == |keywords|
    requires forall j :: 0 <= j < |labels| ==> labels[j] < EffectiveK(DefaultClusterCount, |keywords|)
    ensures var o := ClusterOutcome(Ok(keywords), Ok(labels), commitError, start);
      o.result.Clustered? ==>
        && o.result.clustersCreated <= DefaultClusterCount
        && o.result.clustersCreated <= |keywords|
        && |o.written| == o.result.clustersCreated + |keywords|
  {
    ClusterCountBound(DefaultClusterCount, keywords, labels);
    if LabelsFit(keywords, labels, DefaultClusterCount) {
      MaterialisedRows(start, keywords, labels, DefaultClusterCount);
    }
  }

  /**
   * The forecast job warns "Not enough data for forecast" exactly when fewer than five
   * rankings are on record, and otherwise reports success with a forecast 30 days
   * ahead whose position is at least 1 and whose confidence is in [0, 1].
   */
  lemma ForecastStatus(history: seq<Ranking>, keywordId: int, now: real)
    ensures var r := ForecastResult(Ok(Predict(history, now, DefaultDaysAhead)), keywordId);
      && (r == Warned(NotEnoughData) <==> |history| < MinHistory)
      && (Status(r) == "success" <==> |history| >= MinHistory)
      && (r.Forecasted? ==>
            r.keywordId == keywordId && r.forecast.predictedPosition >= 1
            && 0.0 <= r.forecast.confidenceScore <= 1.0
            && r.forecast.forecastDate == now + 30.0 * 86400.0)
  {
  }
}
