/**
 * The database session a task works in: a read-only keyword catalog, the rows
 * already committed, the rows added in the current transaction and not yet
 * committed, and the next primary key the database hands out.
 */
module Db {
  import opened Common
  import opened Models

  /** Primary keys strictly increase in insertion order (so they are unique). */
  predicate IdsIncreasing(rows: seq<Row>)
  {
    forall i, j :: 0 <= i < j < |rows| ==> rows[i].id < rows[j].id
  }

  /** Every key in `rows` was handed out before `next`. */
  predicate IdsBelow(rows: seq<Row>, next: nat)
  {
    forall i :: 0 <= i < |rows| ==> rows[i].id < next
  }

  /** `query(Keyword).filter(Keyword.id == id).first()`. */
  function FindKeyword(catalog: seq<Keyword>, id: int): (r: Option<Keyword>)
    ensures r.Some? ==> r.value in catalog && r.value.id == id
    ensures r.None? <==> forall i :: 0 <= i < |catalog| ==> catalog[i].id != id
  {
    if catalog == [] then None
    else if catalog[0].id == id then Some(catalog[0])
    else FindKeyword(catalog[1..], id)
  }

  /** `query(Keyword).filter(Keyword.id.in_(ids)).all()`, in catalog order. */
  function KeywordsIn(catalog: seq<Keyword>, ids: seq<int>): (r: seq<Keyword>)
    ensures |r| <= |catalog|
    ensures forall k :: k in r <==> k in catalog && k.id in ids
  {
    if catalog == [] then []
    else (if catalog[0].id in ids then [catalog[0]] else []) + KeywordsIn(catalog[1..], ids)
  }

  /** The ranking rows of one keyword, in storage order. */
  function RankingsOf(rows: seq<Row>, keywordId: int): (r: seq<Ranking>)
    ensures |r| <= |rows|
    ensures forall x :: x in r <==> x.keywordId == keywordId && RankingRecord(x) in RecordsOf(rows)
  {
    if rows == [] then []
    else
      var rest := RankingsOf(rows[1..], keywordId);
      assert RecordsOf(rows) == [rows[0].record] + RecordsOf(rows[1..]);
      match rows[0].record
      case RankingRecord(x) => if x.keywordId == keywordId then [x] + rest else rest
      case _ => rest
  }

  /**
   * The history keeps duplicates: each ranking of the keyword occurs as often as it is
   * stored, so its length is the number of stored ranking rows of that keyword.
   */
  lemma {:induction false} RankingsOfCounts(rows: seq<Row>, keywordId: int, x: Ranking)
    ensures multiset(RankingsOf(rows, keywordId))[x] ==
      if x.keywordId == keywordId then multiset(RecordsOf(rows))[RankingRecord(x)] else 0
  {
    if rows != [] {
      RankingsOfCounts(rows[1..], keywordId, x);
      assert RecordsOf(rows) == [rows[0].record] + RecordsOf(rows[1..]);
    }
  }

  function RecordsOf(rows: seq<Row>): (r: seq<Record>)
    ensures |r| == |rows|
    ensures forall i :: 0 <= i < |rows| ==> r[i] == rows[i].record
  {
    seq(|rows|, i requires 0 <= i < |rows| => rows[i].record)
  }

  class Session {
    const catalog: seq<Keyword>
    /** The exception every read raises, if the database is unreachable. */
    const queryError: Option<string>
    /** The exception `commit()` raises, if the transaction cannot be written. */
    const commitError: Option<string>
    var committed: seq<Row>
    var pending: seq<Row>
    var nextId: nat

    ghost predicate Valid()
      reads this
    {
      IdsIncreasing(committed + pending) && IdsBelow(committed + pending, nextId)
    }

    /** A fresh session (what `get_db()` yields): nothing pending. */
    constructor (catalog: seq<Keyword>, queryError: Option<string>, commitError: Option<string>,
                 committed: seq<Row>, nextId: nat)
      requires IdsIncreasing(committed) && IdsBelow(committed, nextId)
      ensures Valid()
      ensures this.catalog == catalog && this.queryError == queryError && this.commitError == commitError
      ensures this.committed == committed && pending == [] && this.nextId == nextId
    {
      this.catalog := catalog;
      this.queryError := queryError;
      this.commitError := commitError;
      this.committed := committed;
      this.pending := [];
      this.nextId := nextId;
      assert committed + [] == committed;
    }

    function QueryKeyword(id: int): (r: Result<Option<Keyword>>)
      ensures r.Err? <==> queryError.Some?
      ensures r.Ok? ==> r.value == FindKeyword(catalog, id)
    {
      if queryError.Some? then Err(queryError.value) else Ok(FindKeyword(catalog, id))
    }

    function QueryKeywords(ids: seq<int>): (r: Result<seq<Keyword>>)
      ensures r.Err? <==> queryError.Some?
      ensures r.Ok? ==> r.value == KeywordsIn(catalog, ids)
    {
      if queryError.Some? then Err(queryError.value) else Ok(KeywordsIn(catalog, ids))
    }

    /** Ranking history of a keyword; the query autoflushes, so pending rows are seen too. */
    function QueryRankings(keywordId: int): (r: Result<seq<Ranking>>)
      reads this
      ensures r.Err? <==> queryError.Some?
      ensures r.Ok? ==> r.value == RankingsOf(committed + pending, keywordId)
    {
      if queryError.Some? then Err(queryError.value) else Ok(RankingsOf(committed + pending, keywordId))
    }

    /** `db.add(row)` followed by the flush that gives it its primary key. */
    method Add(record: Record) returns (id: nat)
      requires Valid()
      modifies this
      ensures Valid()
      ensures id == old(nextId) && nextId == old(nextId) + 1
      ensures pending == old(pending) + [Row(id, record)] && committed == old(committed)
    {
      id := nextId;
      pending := pending + [Row(id, record)];
      nextId := nextId + 1;
      assert committed + pending == old(committed + pending) + [Row(id, record)];
    }

    /** `db.commit()`: the pending rows become committed, or the commit raises and nothing moves. */
    method Commit() returns (failure: Option<string>)
      requires Valid()
      modifies this
      ensures Valid() && failure == commitError && nextId == old(nextId)
      ensures failure.None? ==> committed == old(committed) + old(pending) && pending == []
      ensures failure.Some? ==> committed == old(committed) && pending == old(pending)
    {
      failure := commitError;
      if failure.None? {
        committed := committed + pending;
        pending := [];
        assert committed + pending == committed;
      }
    }

    /** `db.rollback()`: every pending row is discarded; keys already handed out are not reused. */
    method Rollback()
      requires Valid()
      modifies this
      ensures Valid()
      ensures pending == [] && committed == old(committed) && nextId == old(nextId)
    {
      assert forall i :: 0 <= i < |committed| ==> committed[i] == (committed + pending)[i];
      pending := [];
      assert committed + pending == committed;
    }

    /** Closing the session at the end of `get_db()` discards what was never committed. */
    method Close()
      requires Valid()
      modifies this
      ensures Valid()
      ensures pending == [] && committed == old(committed) && nextId == old(nextId)
    {
      Rollback();
    }
  }
}
