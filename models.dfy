/** The persisted rows the core reads and writes: the shapes of the ORM classes, no behaviour. */
module Models {
  import opened Common

  /** A tracked search keyword; only the fields the core reads. */
  datatype Keyword = Keyword(id: int, keyword: string, searchCountry: string)

  /**
   * One ranking observation. `position` is `None` when the keyword was not found,
   * `timestamp` is the collection time in seconds since the epoch.
   */
  datatype Ranking = Ranking(
    keywordId: int,
    platform: string,
    position: Option<int>,
    visibilityScore: real,
    url: Option<string>,
    timestamp: real)

  /** A cluster row as returned to callers, with its primary key. */
  datatype Cluster = Cluster(id: nat, name: string, intent: string, topicSimilarity: real)

  /** What one row of the database holds, by table. */
  datatype Record =
    | RankingRecord(ranking: Ranking)
    | ClusterRecord(name: string, intent: string, topicSimilarity: real)
    | MembershipRecord(clusterId: nat, keywordId: int)

  /** A row together with the primary key the database gave it. */
  datatype Row = Row(id: nat, record: Record)

  /** The rows holding `records`, keyed consecutively from `start`, in order. */
  function Numbered(start: nat, records: seq<Record>): (rows: seq<Row>)
    ensures |rows| == |records|
    ensures forall i :: 0 <= i < |records| ==> rows[i] == Row(start + i, records[i])
  {
    seq(|records|, i requires 0 <= i < |records| => Row(start + i, records[i]))
  }

  /** Numbering a concatenation numbers the second part from where the first part stops. */
  lemma NumberedAppend(start: nat, front: seq<Record>, back: seq<Record>)
    ensures Numbered(start, front + back) == Numbered(start, front) + Numbered(start + |front|, back)
  {
    var whole, parts := Numbered(start, front + back), Numbered(start, front) + Numbered(start + |front|, back);
    forall i | 0 <= i < |whole|
      ensures whole[i] == parts[i]
    {
      if i >= |front| {
        assert (front + back)[i] == back[i - |front|];
      }
    }
  }
}
