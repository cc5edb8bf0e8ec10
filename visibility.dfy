/**
 * What `KeywordAnalyzer.calculate_visibility_score` computes: per keyword, the sum of
 * the weighted positional scores of its rankings, divided by the size of the weight
 * table and capped at 100.
 */
module Visibility {
  import opened Common
  import opened Models

  /**
   * The per-platform weight table, keyed by lower-case platform name, in the order the
   * dictionary lists it (its keys are distinct: `WeightKeysDistinct`).
   */
  const Weights: seq<(string, real)> := [
    ("google", 1.0), ("bing", 0.8), ("youtube", 0.7),
    ("gemini", 0.9), ("chatgpt", 0.85), ("perplexity", 0.75)]

  /** Weight given to a platform the table does not list. */
  const UnlistedWeight: real := 0.5

  /** `table.get(key, 0.5)`: the weight listed for `key`, or the default. */
  function Lookup(table: seq<(string, real)>, key: string): real
  {
    if table == [] then UnlistedWeight
    else if table[0].0 == key then table[0].1
    else Lookup(table[1..], key)
  }

  /** A key the table does not list gets the default. */
  lemma {:induction false} LookupUnlisted(table: seq<(string, real)>, key: string)
    requires forall i :: 0 <= i < |table| ==> table[i].0 != key
    ensures Lookup(table, key) == UnlistedWeight
  {
    if table != [] {
      assert forall i :: 0 <= i < |table| - 1 ==> table[1..][i] == table[i + 1];
      LookupUnlisted(table[1..], key);
    }
  }

  /** A key listed once gets its own entry. */
  lemma {:induction false} LookupListed(table: seq<(string, real)>, key: string, i: nat)
    requires i < |table| && table[i].0 == key
    requires forall j :: 0 <= j < i ==> table[j].0 != key
    ensures Lookup(table, key) == table[i].1
  {
    if i > 0 {
      assert forall j :: 0 <= j < i - 1 ==> table[1..][j] == table[j + 1];
      LookupListed(table[1..], key, i - 1);
    }
  }

  lemma {:induction false} LookupInRange(table: seq<(string, real)>, key: string)
    requires forall i :: 0 <= i < |table| ==> 0.5 <= table[i].1 <= 1.0
    ensures 0.5 <= Lookup(table, key) <= 1.0
  {
    if table != [] && table[0].0 != key {
      LookupInRange(table[1..], key);
    }
  }

  /** The weight of a platform name, looked up case-insensitively. */
  function Weight(platform: string): (w: real)
    ensures 0.5 <= w <= 1.0
  {
    LookupInRange(Weights, Lower(platform));
    Lookup(Weights, Lower(platform))
  }

  /** `max(0, 100 - position * 5)`. */
  function RawScore(position: int): int
  {
    if 100 - position * 5 > 0 then 100 - position * 5 else 0
  }

  /** Only a ranking with a present, positive position scores anything. */
  predicate Contributes(r: Ranking)
  {
    r.position.Some? && r.position.value > 0
  }

  /** What ranking `r` adds to the running sum of keyword `k`. */
  function Term(r: Ranking, k: int): (t: real)
    ensures t >= 0.0
  {
    if Contributes(r) && r.keywordId == k then
      ScaleMonotone(RawScore(r.position.value) as real, 0.0, Weight(r.platform));
      Times(RawScore(r.position.value) as real, Weight(r.platform))
    else 0.0
  }

  /** The weighted sum of keyword `k` over `rankings`. */
  function Total(rankings: seq<Ranking>, k: int): real
  {
    if rankings == [] then 0.0
    else Total(rankings[..|rankings| - 1], k) + Term(rankings[|rankings| - 1], k)
  }

  /** The keyword ids that have at least one contributing ranking. */
  function Contributors(rankings: seq<Ranking>): set<int>
  {
    set r | r in rankings && Contributes(r) :: r.keywordId
  }

  /** The final normalisation: divide by the table size, cap at 100. */
  function Normalized(total: real): real
  {
    MinReal(100.0, total / (|Weights| as real))
  }

  /** The map the scorer returns. */
  function VisibilityScores(rankings: seq<Ranking>): (m: map<int, real>)
    ensures forall k :: k in m <==> exists i :: 0 <= i < |rankings| && rankings[i].keywordId == k && Contributes(rankings[i])
    ensures rankings == [] ==> m == map[]
  {
    assert forall k :: k in Contributors(rankings) <==>
      exists i :: 0 <= i < |rankings| && rankings[i].keywordId == k && Contributes(rankings[i]) by {
      forall k | k in Contributors(rankings)
        ensures exists i :: 0 <= i < |rankings| && rankings[i].keywordId == k && Contributes(rankings[i])
      {
        var r :| r in rankings && Contributes(r) && r.keywordId == k;
        var i :| 0 <= i < |rankings| && rankings[i] == r;
      }
    }
    map k | k in Contributors(rankings) :: Normalized(Total(rankings, k))
  }

  /** The dictionary the first loop of the scorer has built after reading `rankings`. */
  function Accumulate(rankings: seq<Ranking>): map<int, real>
  {
    if rankings == [] then map[]
    else
      var acc := Accumulate(rankings[..|rankings| - 1]);
      var r := rankings[|rankings| - 1];
      if Contributes(r) then
        acc[r.keywordId := (if r.keywordId in acc then acc[r.keywordId] else 0.0)
                           + Times(RawScore(r.position.value) as real, Weight(r.platform))]
      else acc
  }

  /** Appending one ranking adds its keyword to the contributors exactly when it contributes. */
  lemma ContributorsSnoc(front: seq<Ranking>, r: Ranking)
    ensures Contributors(front + [r]) == Contributors(front) + (if Contributes(r) then {r.keywordId} else {})
  {
    var all := front + [r];
    forall k | k in Contributors(all)
      ensures k in Contributors(front) + (if Contributes(r) then {r.keywordId} else {})
    {
      var x :| x in all && Contributes(x) && x.keywordId == k;
      var i :| 0 <= i < |all| && all[i] == x;
      if i < |front| {
        assert front[i] == x;
      }
    }
    forall k | k in Contributors(front) ensures k in Contributors(all) {
      var x :| x in front && Contributes(x) && x.keywordId == k;
      var i :| 0 <= i < |front| && front[i] == x;
      assert all[i] == x;
    }
    if Contributes(r) {
      assert all[|front|] == r;
    }
  }

  /** The loop's dictionary holds exactly the contributing keywords, each with its weighted sum. */
  lemma {:induction false} AccumulateIsTotal(rankings: seq<Ranking>)
    ensures Accumulate(rankings).Keys == Contributors(rankings)
    ensures forall k :: k in Accumulate(rankings) ==> Accumulate(rankings)[k] == Total(rankings, k)
  {
    if rankings != [] {
      var front, r := rankings[..|rankings| - 1], rankings[|rankings| - 1];
      AccumulateIsTotal(front);
      assert rankings == front + [r];
      ContributorsSnoc(front, r);
      var acc := Accumulate(front);
      if Contributes(r) && r.keywordId !in acc {
        TotalOfNonContributor(front, r.keywordId);
      }
      forall k | k in Accumulate(rankings)
        ensures Accumulate(rankings)[k] == Total(rankings, k)
      {
        assert Total(rankings, k) == Total(front, k) + Term(r, k);
        if k != r.keywordId || !Contributes(r) {
          assert Term(r, k) == 0.0 && Accumulate(rankings)[k] == acc[k];
        }
      }
    }
  }

  /** One more ranking: the dictionary gains or grows the entry of its keyword exactly when it contributes. */
  lemma AccumulateStep(rankings: seq<Ranking>, i: nat)
    requires i < |rankings|
    ensures var acc, r := Accumulate(rankings[..i]), rankings[i];
      Accumulate(rankings[..i + 1]) ==
        if Contributes(r) then
          acc[r.keywordId := (if r.keywordId in acc then acc[r.keywordId] else 0.0)
                             + Times(RawScore(r.position.value) as real, Weight(r.platform))]
        else acc
  {
    var s := rankings[..i + 1];
    assert s[..|s| - 1] == rankings[..i];
    assert s[|s| - 1] == rankings[i];
  }

  /** Normalising every entry of the loop's dictionary gives the scorer's map. */
  lemma NormalizedAccumulate(rankings: seq<Ranking>)
    ensures VisibilityScores(rankings) ==
      map k | k in Accumulate(rankings) :: Normalized(Accumulate(rankings)[k])
  {
    AccumulateIsTotal(rankings);
  }

  /** A keyword with no contributing ranking sums to zero. */
  lemma {:induction false} TotalOfNonContributor(rankings: seq<Ranking>, k: int)
    requires k !in Contributors(rankings)
    ensures Total(rankings, k) == 0.0
  {
    if rankings != [] {
      var front := rankings[..|rankings| - 1];
      assert rankings == front + [rankings[|rankings| - 1]];
      ContributorsSnoc(front, rankings[|rankings| - 1]);
      TotalOfNonContributor(front, k);
    }
  }

  lemma {:induction false} TotalNonNegative(rankings: seq<Ranking>, k: int)
    ensures Total(rankings, k) >= 0.0
  {
    if rankings != [] {
      TotalNonNegative(rankings[..|rankings| - 1], k);
    }
  }

  /** The table is a dictionary: no platform is listed twice. */
  lemma WeightKeysDistinct()
    ensures forall i, j :: 0 <= i < j < |Weights| ==> Weights[i].0 != Weights[j].0
  {
  }

  /**
   * `weights.get(platform.lower(), 0.5)`: a listed platform, in any letter case, gets
   * its table weight; any other platform gets 0.5.
   */
  lemma WeightOfPlatform(platform: string)
    ensures forall i :: 0 <= i < |Weights| && Weights[i].0 == Lower(platform) ==> Weight(platform) == Weights[i].1
    ensures (forall i :: 0 <= i < |Weights| ==> Weights[i].0 != Lower(platform)) ==> Weight(platform) == UnlistedWeight
  {
    WeightKeysDistinct();
    forall i | 0 <= i < |Weights| && Weights[i].0 == Lower(platform)
      ensures Weight(platform) == Weights[i].1
    {
      LookupListed(Weights, Lower(platform), i);
    }
    if forall i :: 0 <= i < |Weights| ==> Weights[i].0 != Lower(platform) {
      LookupUnlisted(Weights, Lower(platform));
    }
  }

  /** Every score is the capped sum divided by six, and lies in [0, 100]. */
  lemma ScoreIsCappedSixth(rankings: seq<Ranking>, k: int)
    requires k in VisibilityScores(rankings)
    ensures VisibilityScores(rankings)[k] == MinReal(100.0, Total(rankings, k) / 6.0)
    ensures 0.0 <= VisibilityScores(rankings)[k] <= 100.0
  {
    TotalNonNegative(rankings, k);
  }

  /** A single Google ranking at position 1 scores 95 / 6, whatever the case of the platform name. */
  lemma SingleTopGoogleRanking(k: int, platform: string, visibility: real, url: Option<string>, at: real)
    requires Lower(platform) == "google"
    ensures VisibilityScores([Ranking(k, platform, Some(1), visibility, url, at)]) == map[k := 95.0 / 6.0]
  {
    var rs := [Ranking(k, platform, Some(1), visibility, url, at)];
    assert Weight(platform) == 1.0;
    assert rs[..0] == [];
    assert Total(rs, k) == 95.0;
    assert Contributors(rs) == {k};
  }

  /** Total over a concatenation is the sum of the totals. */
  lemma {:induction false} TotalAppend(a: seq<Ranking>, b: seq<Ranking>, k: int)
    ensures Total(a + b, k) == Total(a, k) + Total(b, k)
  {
    if b == [] {
      assert a + b == a;
    } else {
      TotalAppend(a, b[..|b| - 1], k);
      assert (a + b)[..|a + b| - 1] == a + b[..|b| - 1];
    }
  }

  /** Improving one ranking's position never lowers its own keyword's sum and leaves other keywords' sums alone. */
  lemma {:induction false} TotalAfterImproving(rankings: seq<Ranking>, i: nat, p: int, k: int)
    requires i < |rankings| && Contributes(rankings[i]) && 0 < p <= rankings[i].position.value
    ensures k == rankings[i].keywordId ==>
      Total(rankings[i := rankings[i].(position := Some(p))], k) >= Total(rankings, k)
    ensures k != rankings[i].keywordId ==>
      Total(rankings[i := rankings[i].(position := Some(p))], k) == Total(rankings, k)
  {
    var better := rankings[i := rankings[i].(position := Some(p))];
    var n := |rankings|;
    if i == n - 1 {
      assert better[..n - 1] == rankings[..n - 1];
      if k == rankings[i].keywordId {
        var q := rankings[i].position.value;
        assert RawScore(p) >= RawScore(q);
        ScaleMonotone(RawScore(p) as real, RawScore(q) as real, Weight(rankings[i].platform));
        assert Term(better[i], k) >= Term(rankings[i], k);
      } else {
        assert Term(better[i], k) == 0.0 == Term(rankings[i], k);
      }
    } else {
      TotalAfterImproving(rankings[..n - 1], i, p, k);
      assert better[..n - 1] == rankings[..n - 1][i := rankings[i].(position := Some(p))];
      assert better[n - 1] == rankings[n - 1];
    }
  }

  /** Lowering one ranking's positive position never decreases its keyword's score; no other score moves. */
  lemma ImprovingPositionNeverLowersScore(rankings: seq<Ranking>, i: nat, p: int)
    requires i < |rankings| && Contributes(rankings[i]) && 0 < p <= rankings[i].position.value
    ensures var better := rankings[i := rankings[i].(position := Some(p))];
      var k := rankings[i].keywordId;
      && VisibilityScores(better).Keys == VisibilityScores(rankings).Keys
      && k in VisibilityScores(rankings)
      && VisibilityScores(better)[k] >= VisibilityScores(rankings)[k]
      && forall j :: j in VisibilityScores(rankings) && j != k ==>
           VisibilityScores(better)[j] == VisibilityScores(rankings)[j]
  {
    var better := rankings[i := rankings[i].(position := Some(p))];
    var k := rankings[i].keywordId;
    assert Contributors(better) == Contributors(rankings) by {
      forall j | j in Contributors(rankings) ensures j in Contributors(better) {
        var x :| x in rankings && Contributes(x) && x.keywordId == j;
        var m :| 0 <= m < |rankings| && rankings[m] == x;
        assert better[m] in better && Contributes(better[m]) && better[m].keywordId == j;
      }
      forall j | j in Contributors(better) ensures j in Contributors(rankings) {
        var x :| x in better && Contributes(x) && x.keywordId == j;
        var m :| 0 <= m < |better| && better[m] == x;
        assert rankings[m] in rankings && Contributes(rankings[m]) && rankings[m].keywordId == j;
      }
    }
    assert k in Contributors(rankings) by {
      assert rankings[i] in rankings;
    }
    TotalAfterImproving(rankings, i, p, k);
    assert Normalized(Total(better, k)) >= Normalized(Total(rankings, k));
    forall j | j in VisibilityScores(rankings) && j != k
      ensures VisibilityScores(better)[j] == VisibilityScores(rankings)[j]
    {
      TotalAfterImproving(rankings, i, p, j);
    }
  }

  /** A ranking of another keyword, inserted anywhere, changes neither the presence nor the score of `k`. */
  lemma OtherKeywordsDoNotMatter(rankings: seq<Ranking>, j: nat, r: Ranking, k: int)
    requires j <= |rankings| && r.keywordId != k
    ensures var more := rankings[..j] + [r] + rankings[j..];
      && (k in VisibilityScores(more) <==> k in VisibilityScores(rankings))
      && (k in VisibilityScores(rankings) ==> VisibilityScores(more)[k] == VisibilityScores(rankings)[k])
  {
    var more := rankings[..j] + [r] + rankings[j..];
    TotalInsertOther(rankings, j, r, k);
    ContributorsInsertOther(rankings, j, r, k);
  }

  lemma TotalInsertOther(rankings: seq<Ranking>, j: nat, r: Ranking, k: int)
    requires j <= |rankings| && r.keywordId != k
    ensures Total(rankings[..j] + [r] + rankings[j..], k) == Total(rankings, k)
  {
    assert rankings == rankings[..j] + rankings[j..];
    TotalAppend(rankings[..j] + [r], rankings[j..], k);
    TotalAppend(rankings[..j], [r], k);
    TotalAppend(rankings[..j], rankings[j..], k);
    assert [r][..0] == [];
    assert Total([r], k) == 0.0;
  }

  lemma ContributorsInsertOther(rankings: seq<Ranking>, j: nat, r: Ranking, k: int)
    requires j <= |rankings| && r.keywordId != k
    ensures k in Contributors(rankings[..j] + [r] + rankings[j..]) <==> k in Contributors(rankings)
  {
    var more := rankings[..j] + [r] + rankings[j..];
    if k in Contributors(more) {
      var x :| x in more && Contributes(x) && x.keywordId == k;
      var m :| 0 <= m < |more| && more[m] == x;
      if m < j {
        assert rankings[m] == x;
      } else {
        assert m > j && rankings[m - 1] == x;
      }
    }
    if k in Contributors(rankings) {
      var x :| x in rankings && Contributes(x) && x.keywordId == k;
      var m :| 0 <= m < |rankings| && rankings[m] == x;
      if m < j {
        assert more[m] == x;
      } else {
        assert more[m + 1] == x;
      }
    }
  }
}
