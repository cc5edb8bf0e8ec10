/**
 * The two analysis engines of the background workers, each holding the database
 * session it was built with: `KeywordAnalyzer` (visibility scoring, and the
 * materialisation of a keyword clustering) and `ForecastEngine` (the trend forecast).
 * TF-IDF, k-means and the least-squares library call are not modelled: the labels
 * come in as an input, and the fit is its closed form (module Forecasting).
 */
module Analysis {
  import opened Common
  import opened Models
  import opened Db
  import opened Visibility
  import opened Clustering
  import opened Forecasting

  /** The second loop of `calculate_visibility_score`: every summed entry is normalised in place. */
  method NormalizeAll(sums: map<int, real>) returns (scores: map<int, real>)
    ensures scores == map k | k in sums :: Normalized(sums[k])
  {
    scores := map[];
    var todo := sums.Keys;
    while todo != {}
      invariant todo <= sums.Keys
      invariant scores == map k | k in sums && k !in todo :: Normalized(sums[k])
      decreases |todo|
    {
      SomeKey(todo);
      var key :| key in todo;
      scores := scores[key := Normalized(sums[key])];
      todo := todo - {key};
    }
  }

  class KeywordAnalyzer {
    const db: Session

    constructor (db: Session)
      ensures this.db == db
    {
      this.db := db;
    }

    /**
     * `calculate_visibility_score`: a first loop folds the contributing rankings into a
     * dictionary of weighted sums, a second loop normalises every entry in place.
     */
    method CalculateVisibilityScore(rankings: seq<Ranking>) returns (scores: map<int, real>)
      ensures scores == VisibilityScores(rankings)
    {
      var sums: map<int, real> := map[];
      var i := 0;
      while i < |rankings|
        invariant 0 <= i <= |rankings|
        invariant sums == Accumulate(rankings[..i])
      {
        var ranking := rankings[i];
        var position := ranking.position;
        AccumulateStep(rankings, i);
        ghost var before := sums;
        if position.Some? && position.value > 0 {
          var score := 100 - position.value * 5;
          if score < 0 {
            score := 0;
          }
          var weighted := Times(score as real, Weight(ranking.platform));
          if ranking.keywordId !in sums {
            sums := sums[ranking.keywordId := 0.0];
          }
          sums := sums[ranking.keywordId := sums[ranking.keywordId] + weighted];
          assert sums == before[ranking.keywordId :=
            (if ranking.keywordId in before then before[ranking.keywordId] else 0.0) + weighted];
          assert Contributes(ranking);
        } else {
          assert !Contributes(ranking);
        }
        assert sums == Accumulate(rankings[..i + 1]);
        i := i + 1;
      }
      assert rankings[..i] == rankings;

      scores := NormalizeAll(sums);
      NormalizedAccumulate(rankings);
    }

    /**
     * `cluster_keywords` once TF-IDF and k-means have run: `labelling` is what they
     * produced for `Texts(keywords)` with `EffectiveK(nClusters, |keywords|)` clusters,
     * or the exception they raised. Adds the cluster rows one by one, then one
     * membership row per (keyword, label) pair, then commits once.
     */
    method ClusterKeywords(keywords: seq<Keyword>, nClusters: int, labelling: Result<seq<nat>>)
      returns (r: Result<seq<Cluster>>)
      requires db.Valid()
      modifies db
      ensures db.Valid()
      ensures labelling.Err? ==> r == Err(labelling.error) && unchanged(db)
      ensures labelling.Ok? ==>
        var labels := labelling.value;
        var start := old(db.nextId);
        var rows := Materialised(start, keywords, labels, nClusters);
        && db.nextId == start + |rows|
        && (if !LabelsFit(keywords, labels, nClusters) then
              r == Err(IndexErrorMessage) && db.committed == old(db.committed) && db.pending == old(db.pending) + rows
            else if db.commitError.Some? then
              r == Err(db.commitError.value) && db.committed == old(db.committed) && db.pending == old(db.pending) + rows
            else
              r == Ok(ClustersFrom(start, ClusterCount(nClusters, labels)))
              && db.committed == old(db.committed) + old(db.pending) + rows && db.pending == [])
    {
      if labelling.Err? {
        return Err(labelling.error);
      }
      r := Materialise(keywords, nClusters, labelling.value);
    }

    /** The rows of one labelling: clusters, then memberships, then the commit. */
    method Materialise(keywords: seq<Keyword>, nClusters: int, labels: seq<nat>)
      returns (r: Result<seq<Cluster>>)
      requires db.Valid()
      modifies db
      ensures db.Valid()
      ensures var rows := Materialised(old(db.nextId), keywords, labels, nClusters);
        db.nextId == old(db.nextId) + |rows| && (r.Ok? ==> db.pending == []) &&
        (r.Err? ==> db.committed == old(db.committed) && db.pending == old(db.pending) + rows) &&
        (r.Ok? ==> db.committed == old(db.committed) + old(db.pending) + rows)
      ensures !LabelsFit(keywords, labels, nClusters) ==> r == Err(IndexErrorMessage)
      ensures LabelsFit(keywords, labels, nClusters) && db.commitError.Some? ==> r == Err(db.commitError.value)
      ensures LabelsFit(keywords, labels, nClusters) && db.commitError.None? ==>
        r == Ok(ClustersFrom(old(db.nextId), ClusterCount(nClusters, labels)))
    {
      var clusters, added := AddRows(keywords, nClusters, labels);
      if added < PairCount(keywords, labels) {
        return Err(IndexErrorMessage);
      }
      var failure := db.Commit();
      if failure.Some? {
        return Err(failure.value);
      }
      return Ok(clusters);
    }

    /** Both loops of `cluster_keywords`: the cluster rows, then the membership rows, all pending. */
    method AddRows(keywords: seq<Keyword>, nClusters: int, labels: seq<nat>)
      returns (clusters: seq<Cluster>, added: nat)
      requires db.Valid()
      modifies db
      ensures db.Valid()
      ensures clusters == ClustersFrom(old(db.nextId), ClusterCount(nClusters, labels))
      ensures added == MembershipsAdded(keywords, labels, nClusters)
      ensures var rows := Materialised(old(db.nextId), keywords, labels, nClusters);
        db.nextId == old(db.nextId) + |rows| && db.committed == old(db.committed) && db.pending == old(db.pending) + rows
    {
      var start := db.nextId;
      var m := ClusterCount(nClusters, labels);
      clusters := AddClusters(m);
      ghost var afterClusters := db.pending;
      added := AddMemberships(start, keywords, labels, clusters);
      PendingAfterBothLoops(old(db.pending), afterClusters, db.pending, start, keywords, labels, nClusters, added);
    }

    /** The first loop of `cluster_keywords`: one cluster row per label value, added and flushed. */
    method AddClusters(m: nat) returns (clusters: seq<Cluster>)
      requires db.Valid()
      modifies db
      ensures db.Valid()
      ensures clusters == ClustersFrom(old(db.nextId), m)
      ensures db.nextId == old(db.nextId) + m && db.committed == old(db.committed)
      ensures db.pending == old(db.pending) + Numbered(old(db.nextId), ClusterRecords(m))
    {
      var start := db.nextId;
      clusters := [];
      var i := 0;
      while i < m
        invariant 0 <= i <= m
        invariant db.Valid()
        invariant clusters == ClustersFrom(start, i)
        invariant db.nextId == start + i && db.committed == old(db.committed)
        invariant db.pending == old(db.pending) + Numbered(start, ClusterRecords(i))
      {
        var record := ClusterRecord(ClusterName(i), "mixed", 0.0);
        var id := db.Add(record);
        clusters := clusters + [Cluster(id, ClusterName(i), "mixed", 0.0)];
        ClusterRowsStep(start, i);
        i := i + 1;
      }
    }

    /**
     * The second loop of `cluster_keywords`: one membership row per zipped (keyword, label)
     * pair, pointing at `clusters[label]`; it stops at the first label with no cluster,
     * where `clusters[label]` raises. Returns how many rows it added.
     */
    method AddMemberships(start: nat, keywords: seq<Keyword>, labels: seq<nat>, clusters: seq<Cluster>)
      returns (added: nat)
      requires db.Valid()
      requires clusters == ClustersFrom(start, |clusters|)
      modifies db
      ensures db.Valid()
      ensures added == FirstOutOfRange(labels[..PairCount(keywords, labels)], |clusters|)
      ensures db.nextId == old(db.nextId) + added && db.committed == old(db.committed)
      ensures db.pending == old(db.pending) + Numbered(old(db.nextId), MembershipRecords(start, keywords, labels, added))
    {
      var pairs := PairCount(keywords, labels);
      var first := db.nextId;
      ghost var goal := FirstOutOfRange(labels[..pairs], |clusters|);
      added := 0;
      while added < pairs
        invariant added <= goal
        invariant db.Valid()
        invariant db.nextId == first + added && db.committed == old(db.committed)
        invariant db.pending == old(db.pending) + Numbered(first, MembershipRecords(start, keywords, labels, added))
      {
        assert labels[..pairs][added] == labels[added];
        if labels[added] >= |clusters| {
          return;
        }
        var record := MembershipRecord(clusters[labels[added]].id, keywords[added].id);
        var _ := db.Add(record);
        MembershipRowsStep(first, start, keywords, labels, added);
        added := added + 1;
      }
    }
  }

  class ForecastEngine {
    const db: Session

    constructor (db: Session)
      ensures this.db == db
    {
      this.db := db;
    }

    /**
     * `predict_keyword_trends`: the keyword's ranking history (the query autoflushes, so
     * rows pending in the session count), then the forecast of `Predict`; a failing query
     * raises.
     */
    function PredictKeywordTrends(keywordId: int, daysAhead: int, now: real): (r: Result<Option<ForecastData>>)
      reads db
      ensures r.Err? <==> db.queryError.Some?
      ensures r.Ok? ==> (r.value.None? <==> |RankingsOf(db.committed + db.pending, keywordId)| < MinHistory)
      ensures r.Ok? && r.value.Some? ==>
        r.value.value.predictedPosition >= 1 && 0.0 <= r.value.value.confidenceScore <= 1.0
        && r.value.value.forecastDate == now + daysAhead as real * SecondsPerDay
    {
      match db.QueryRankings(keywordId)
      case Err(e) => Err(e)
      case Ok(history) => Ok(Predict(history, now, daysAhead))
    }
  }
}
