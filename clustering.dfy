/**
 * What `KeywordAnalyzer.cluster_keywords` materialises once TF-IDF and k-means have
 * labelled the keywords: the cluster rows, one membership row per labelled keyword,
 * and the index error raised when a label has no cluster.
 */
module Clustering {
  import opened Common
  import opened Models

  /** The default `n_clusters`. */
  const DefaultClusterCount: int := 5

  /** Message of the `IndexError` raised by `clusters[label]`. */
  const IndexErrorMessage: string := "list index out of range"

  /** The `n_clusters` handed to k-means: `min(n_clusters, len(keyword_texts))`. */
  function EffectiveK(nClusters: int, count: nat): int
  {
    if nClusters <= count then nClusters else count
  }

  /** The keyword texts handed to the vectorizer. */
  function Texts(keywords: seq<Keyword>): (texts: seq<string>)
    ensures |texts| == |keywords|
    ensures forall i :: 0 <= i < |keywords| ==> texts[i] == keywords[i].keyword
  {
    seq(|keywords|, i requires 0 <= i < |keywords| => keywords[i].keyword)
  }

  /** `set(cluster_labels)`. */
  function DistinctLabels(labels: seq<nat>): set<nat>
  {
    set l | l in labels
  }

  /** `{0, ..., k - 1}`. */
  function Below(k: nat): (r: set<nat>)
    ensures forall i: nat :: i in r <==> i < k
  {
    if k == 0 then {} else Below(k - 1) + {k - 1}
  }

  /** The number of clusters created: `len(range(min(n_clusters, len(set(labels)))))`. */
  function ClusterCount(nClusters: int, labels: seq<nat>): nat
  {
    var d := |DistinctLabels(labels)|;
    if nClusters <= 0 then 0 else if nClusters < d then nClusters else d
  }

  /** `f"Cluster {i+1}"`. */
  function ClusterName(i: nat): string
  {
    "Cluster " + NatToString(i + 1)
  }

  /** The cluster rows, before their keys: every one "mixed" with similarity 0.0. */
  function ClusterRecords(m: nat): (records: seq<Record>)
    ensures |records| == m
    ensures forall i :: 0 <= i < m ==> records[i] == ClusterRecord(ClusterName(i), "mixed", 0.0)
  {
    seq(m, i requires 0 <= i < m => ClusterRecord(ClusterName(i), "mixed", 0.0))
  }

  /** The clusters returned to the caller when their keys start at `start`. */
  function ClustersFrom(start: nat, m: nat): (clusters: seq<Cluster>)
    ensures |clusters| == m
    ensures forall i :: 0 <= i < m ==> clusters[i] == Cluster(start + i, ClusterName(i), "mixed", 0.0)
  {
    seq(m, i requires 0 <= i < m => Cluster(start + i, ClusterName(i), "mixed", 0.0))
  }

  /** How many (keyword, label) pairs `zip` produces. */
  function PairCount(keywords: seq<Keyword>, labels: seq<nat>): nat
  {
    if |keywords| <= |labels| then |keywords| else |labels|
  }

  /** The index of the first label with no cluster, or `|labels|` if there is none. */
  function FirstOutOfRange(labels: seq<nat>, m: nat): (j: nat)
    ensures j <= |labels|
    ensures forall i :: 0 <= i < j ==> labels[i] < m
    ensures j < |labels| ==> labels[j] >= m
  {
    if labels == [] then 0
    else if labels[0] >= m then 0
    else 1 + FirstOutOfRange(labels[1..], m)
  }

  /** The membership rows for the first `count` pairs; cluster `l` has key `start + l`. */
  function MembershipRecords(start: nat, keywords: seq<Keyword>, labels: seq<nat>, count: nat): (records: seq<Record>)
    requires count <= |keywords| && count <= |labels|
    ensures |records| == count
    ensures forall j :: 0 <= j < count ==> records[j] == MembershipRecord(start + labels[j], keywords[j].id)
  {
    seq(count, j requires 0 <= j < count => MembershipRecord(start + labels[j], keywords[j].id))
  }

  /** How many membership rows are added before the loop stops: all pairs, or up to the first bad label. */
  function MembershipsAdded(keywords: seq<Keyword>, labels: seq<nat>, nClusters: int): (count: nat)
    ensures count <= PairCount(keywords, labels)
  {
    FirstOutOfRange(labels[..PairCount(keywords, labels)], ClusterCount(nClusters, labels))
  }

  /** Every zipped label names a created cluster, so no index error is raised. */
  predicate LabelsFit(keywords: seq<Keyword>, labels: seq<nat>, nClusters: int)
  {
    MembershipsAdded(keywords, labels, nClusters) == PairCount(keywords, labels)
  }

  /** The rows `cluster_keywords` adds after labelling, keyed from `start`, in the order added. */
  function Materialised(start: nat, keywords: seq<Keyword>, labels: seq<nat>, nClusters: int): seq<Row>
  {
    var m := ClusterCount(nClusters, labels);
    Numbered(start, ClusterRecords(m) + MembershipRecords(start, keywords, labels, MembershipsAdded(keywords, labels, nClusters)))
  }

  /** The materialised rows are the numbered cluster rows, then the numbered membership rows. */
  lemma MaterialisedSplit(start: nat, keywords: seq<Keyword>, labels: seq<nat>, nClusters: int)
    ensures var m := ClusterCount(nClusters, labels);
      Materialised(start, keywords, labels, nClusters)
        == Numbered(start, ClusterRecords(m))
           + Numbered(start + m, MembershipRecords(start, keywords, labels, MembershipsAdded(keywords, labels, nClusters)))
  {
    var m := ClusterCount(nClusters, labels);
    NumberedAppend(start, ClusterRecords(m), MembershipRecords(start, keywords, labels, MembershipsAdded(keywords, labels, nClusters)));
  }

  /** Pending rows after the cluster loop and then the membership loop: the materialised rows were appended. */
  lemma PendingAfterBothLoops(before: seq<Row>, middle: seq<Row>, after: seq<Row>, start: nat,
                              keywords: seq<Keyword>, labels: seq<nat>, nClusters: int, added: nat)
    requires middle == before + Numbered(start, ClusterRecords(ClusterCount(nClusters, labels)))
    requires added == FirstOutOfRange(labels[..PairCount(keywords, labels)], ClusterCount(nClusters, labels))
    requires after == middle + Numbered(start + ClusterCount(nClusters, labels), MembershipRecords(start, keywords, labels, added))
    ensures after == before + Materialised(start, keywords, labels, nClusters)
  {
    MaterialisedSplit(start, keywords, labels, nClusters);
  }

  /** One more cluster: one more numbered cluster row at the end. */
  lemma ClusterRowsStep(start: nat, i: nat)
    ensures Numbered(start, ClusterRecords(i + 1))
      == Numbered(start, ClusterRecords(i)) + [Row(start + i, ClusterRecord(ClusterName(i), "mixed", 0.0))]
  {
    var record := ClusterRecord(ClusterName(i), "mixed", 0.0);
    assert ClusterRecords(i + 1) == ClusterRecords(i) + [record];
    NumberedAppend(start, ClusterRecords(i), [record]);
  }

  /** One more (keyword, label) pair: one more numbered membership row at the end. */
  lemma MembershipRowsStep(first: nat, start: nat, keywords: seq<Keyword>, labels: seq<nat>, added: nat)
    requires added < |keywords| && added < |labels|
    ensures Numbered(first, MembershipRecords(start, keywords, labels, added + 1))
      == Numbered(first, MembershipRecords(start, keywords, labels, added))
         + [Row(first + added, MembershipRecord(start + labels[added], keywords[added].id))]
  {
    var record := MembershipRecord(start + labels[added], keywords[added].id);
    assert MembershipRecords(start, keywords, labels, added + 1)
      == MembershipRecords(start, keywords, labels, added) + [record];
    NumberedAppend(first, MembershipRecords(start, keywords, labels, added), [record]);
  }

  lemma {:induction false} BelowSize(k: nat)
    ensures |Below(k)| == k
  {
    if k > 0 {
      BelowSize(k - 1);
    }
  }

  /** A sequence has no more distinct labels than elements. */
  lemma {:induction false} DistinctLabelsAtMostLength(labels: seq<nat>)
    ensures |DistinctLabels(labels)| <= |labels|
  {
    if labels != [] {
      var front := labels[..|labels| - 1];
      DistinctLabelsAtMostLength(front);
      assert DistinctLabels(labels) == DistinctLabels(front) + {labels[|labels| - 1]} by {
        assert labels == front + [labels[|labels| - 1]];
      }
    }
  }

  /** Labels below `k` take at most `k` distinct values. */
  lemma DistinctLabelsBelow(labels: seq<nat>, k: nat)
    requires forall j :: 0 <= j < |labels| ==> labels[j] < k
    ensures |DistinctLabels(labels)| <= k
  {
    var a, b := DistinctLabels(labels), Below(k);
    assert a <= b;
    assert b == a + (b - a) && a !! (b - a);
    BelowSize(k);
  }

  /**
   * When k-means keeps its contract (one label per keyword, each below the k it was given),
   * no more clusters are created than `n_clusters` or than there are keywords.
   */
  lemma ClusterCountBound(nClusters: int, keywords: seq<Keyword>, labels: seq<nat>)
    requires |labels| == |keywords|
    requires forall j :: 0 <= j < |labels| ==> labels[j] < EffectiveK(nClusters, |keywords|)
    ensures ClusterCount(nClusters, labels) <= |keywords|
    ensures nClusters >= 0 ==> ClusterCount(nClusters, labels) <= nClusters
  {
    if labels != [] {
      assert labels[0] < EffectiveK(nClusters, |keywords|);
      DistinctLabelsBelow(labels, EffectiveK(nClusters, |keywords|));
    }
  }

  /**
   * With at most `n_clusters` distinct labels, every label has a cluster exactly when
   * the labels are the contiguous range `0 .. d - 1`; a gap raises the index error.
   */
  lemma LabelsFitIffContiguous(nClusters: int, keywords: seq<Keyword>, labels: seq<nat>)
    requires |labels| == |keywords|
    requires |DistinctLabels(labels)| <= nClusters
    ensures LabelsFit(keywords, labels, nClusters) <==>
      DistinctLabels(labels) == Below(|DistinctLabels(labels)|)
  {
    var d := |DistinctLabels(labels)|;
    var m := ClusterCount(nClusters, labels);
    assert m == d;
    assert labels[..PairCount(keywords, labels)] == labels;
    BelowSize(d);
    if LabelsFit(keywords, labels, nClusters) {
      assert DistinctLabels(labels) <= Below(d) by {
        forall l | l in DistinctLabels(labels) ensures l in Below(d) {
          var j :| 0 <= j < |labels| && labels[j] == l;
        }
      }
      assert |Below(d) - DistinctLabels(labels)| == 0;
    } else {
      var j := MembershipsAdded(keywords, labels, nClusters);
      assert labels[j] >= d && labels[j] in DistinctLabels(labels) && labels[j] !in Below(d);
    }
  }

  /** Labels `[0, 2, 2]`: two distinct labels make two clusters, and label 2 then has none. */
  lemma GapInLabelsRaises(keywords: seq<Keyword>)
    requires |keywords| == 3
    ensures ClusterCount(DefaultClusterCount, [0, 2, 2]) == 2
    ensures !LabelsFit(keywords, [0, 2, 2], DefaultClusterCount)
    ensures MembershipsAdded(keywords, [0, 2, 2], DefaultClusterCount) == 1
  {
    var labels: seq<nat> := [0, 2, 2];
    assert DistinctLabels(labels) == {0, 2} by {
      assert labels[0] == 0 && labels[1] == 2;
    }
    assert labels[..3] == labels;
    assert labels[1..] == [2, 2];
  }

  /**
   * When every label fits: the m cluster rows come first, named "Cluster 1".."Cluster m",
   * then one membership row per keyword, in input order, pointing at `clusters[label]`.
   */
  lemma MaterialisedRows(start: nat, keywords: seq<Keyword>, labels: seq<nat>, nClusters: int)
    requires |labels| == |keywords| && LabelsFit(keywords, labels, nClusters)
    ensures var m := ClusterCount(nClusters, labels);
      var rows := Materialised(start, keywords, labels, nClusters);
      var clusters := ClustersFrom(start, m);
      && |rows| == m + |keywords|
      && (forall i :: 0 <= i < m ==>
            rows[i] == Row(clusters[i].id, ClusterRecord(clusters[i].name, "mixed", 0.0)))
      && (forall j :: 0 <= j < |keywords| ==>
            labels[j] < m && rows[m + j].record == MembershipRecord(clusters[labels[j]].id, keywords[j].id))
  {
    var m := ClusterCount(nClusters, labels);
    assert labels[..PairCount(keywords, labels)] == labels;
    var memberships := MembershipRecords(start, keywords, labels, |keywords|);
    var records := ClusterRecords(m) + memberships;
    var rows := Materialised(start, keywords, labels, nClusters);
    assert rows == Numbered(start, records);
    var clusters := ClustersFrom(start, m);
    forall i | 0 <= i < m
      ensures rows[i] == Row(clusters[i].id, ClusterRecord(clusters[i].name, "mixed", 0.0))
    {
      assert records[i] == ClusterRecords(m)[i];
    }
    forall j | 0 <= j < |keywords|
      ensures labels[j] < m && rows[m + j].record == MembershipRecord(clusters[labels[j]].id, keywords[j].id)
    {
      assert labels[..PairCount(keywords, labels)][j] == labels[j];
      assert records[m + j] == memberships[j];
    }
  }
}
