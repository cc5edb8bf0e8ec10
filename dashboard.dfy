/**
 * Two small computations of the dashboard: the strategy quadrant of a keyword
 * (`pd.cut` of its difficulty into three right-closed bins, then `astype(str)`), and the
 * keyword frequency table of the competitor scraper (tokenise the lower-cased page text,
 * drop stop words and short words, then `Counter(...).most_common(10)`).
 */
module Dashboard {
  import opened Common

  // ---------------------------------------------------------------------------------
  // Strategy quadrant

  /** The bin edges handed to `pd.cut`. */
  const QuadrantEdges: seq<real> := [-1.0, 30.0, 70.0, 101.0]

  /** The bin labels handed to `pd.cut`. */
  const QuadrantLabels: seq<string> := ["Quick Wins", "Standard Competition", "High Effort"]

  /** What `astype(str)` makes of the missing category a value outside every bin gets. */
  const NoQuadrant: string := "nan"

  predicate StrictlyIncreasing(edges: seq<real>)
  {
    forall i, j :: 0 <= i < j < |edges| ==> edges[i] < edges[j]
  }

  /**
   * `pd.cut(x, bins=edges, labels=labels)` with right-closed bins: the label of the bin
   * `(edges[b], edges[b + 1]]` holding `x`, or `None` when `x` is in none of them.
   */
  function Cut(x: real, edges: seq<real>, labels: seq<string>): (r: Option<string>)
    requires |labels| + 1 == |edges|
    ensures r.Some? ==> exists b :: 0 <= b < |labels| && edges[b] < x <= edges[b + 1] && r.value == labels[b]
    ensures r.None? ==> forall b :: 0 <= b < |labels| ==> !(edges[b] < x <= edges[b + 1])
    decreases |labels|
  {
    if |labels| == 0 then None
    else if edges[0] < x <= edges[1] then Some(labels[0])
    else
      var rest := Cut(x, edges[1..], labels[1..]);
      assert forall b :: 1 <= b < |labels| ==> edges[1..][b - 1] == edges[b] && labels[1..][b - 1] == labels[b];
      rest
  }

  /** With increasing edges a value lies in at most one bin, so `Cut` names exactly that bin. */
  lemma CutFindsTheBin(x: real, edges: seq<real>, labels: seq<string>, b: nat)
    requires |labels| + 1 == |edges| && StrictlyIncreasing(edges)
    requires b < |labels| && edges[b] < x <= edges[b + 1]
    ensures Cut(x, edges, labels) == Some(labels[b])
  {
    var r := Cut(x, edges, labels);
    var c :| 0 <= c < |labels| && edges[c] < x <= edges[c + 1] && r.value == labels[c];
    assert c <= b by {
      assert edges[c] < edges[b + 1];
    }
    assert b <= c by {
      assert edges[b] < edges[c + 1];
    }
  }

  /** The strategy quadrant of one keyword difficulty, as the string column holds it. */
  function Quadrant(difficulty: real): string
  {
    match Cut(difficulty, QuadrantEdges, QuadrantLabels)
    case Some(name) => name
    case None => NoQuadrant
  }

  /** The quadrant column of a frame's difficulty column. */
  function Quadrants(difficulties: seq<real>): (labels: seq<string>)
    ensures |labels| == |difficulties|
    ensures forall i :: 0 <= i < |difficulties| ==> labels[i] == Quadrant(difficulties[i])
  {
    seq(|difficulties|, i requires 0 <= i < |difficulties| => Quadrant(difficulties[i]))
  }

  /**
   * The three right-closed intervals: (-1, 30] is "Quick Wins", (30, 70] "Standard
   * Competition", (70, 101] "High Effort"; anything else, -1 itself included, is "nan".
   */
  lemma QuadrantIntervals(difficulty: real)
    ensures Quadrant(difficulty) == "Quick Wins" <==> -1.0 < difficulty <= 30.0
    ensures Quadrant(difficulty) == "Standard Competition" <==> 30.0 < difficulty <= 70.0
    ensures Quadrant(difficulty) == "High Effort" <==> 70.0 < difficulty <= 101.0
    ensures Quadrant(difficulty) == NoQuadrant <==> difficulty <= -1.0 || difficulty > 101.0
  {
    assert StrictlyIncreasing(QuadrantEdges);
    if -1.0 < difficulty <= 30.0 {
      CutFindsTheBin(difficulty, QuadrantEdges, QuadrantLabels, 0);
    } else if 30.0 < difficulty <= 70.0 {
      CutFindsTheBin(difficulty, QuadrantEdges, QuadrantLabels, 1);
    } else if 70.0 < difficulty <= 101.0 {
      CutFindsTheBin(difficulty, QuadrantEdges, QuadrantLabels, 2);
    }
  }

  /** Every difficulty a cleaned frame can hold in 0..100 falls in one of the three quadrants. */
  lemma CleanedDifficultyHasQuadrant(difficulty: real)
    requires 0.0 <= difficulty <= 100.0
    ensures Quadrant(difficulty) in QuadrantLabels
  {
    QuadrantIntervals(difficulty);
  }

  // ---------------------------------------------------------------------------------
  // Keyword frequency

  /** A character `\w` matches (ASCII letters, digits and the underscore). */
  predicate WordChar(c: char)
  {
    'a' <= c <= 'z' || 'A' <= c <= 'Z' || '0' <= c <= '9' || c == '_'
  }

  /** The number of word characters `s` starts with. */
  function RunLength(s: string): (n: nat)
    ensures n <= |s|
    ensures forall i :: 0 <= i < n ==> WordChar(s[i])
    ensures n < |s| ==> !WordChar(s[n])
  {
    if s == [] || !WordChar(s[0]) then 0 else 1 + RunLength(s[1..])
  }

  /** `re.findall(r'\w+', s)`: the maximal runs of word characters, left to right. */
  function Tokens(s: string): (words: seq<string>)
    ensures forall k :: 0 <= k < |words| ==> |words[k]| > 0
    ensures forall k :: 0 <= k < |words| ==> forall i :: 0 <= i < |words[k]| ==> WordChar(words[k][i])
    decreases |s|
  {
    if s == [] then []
    else if !WordChar(s[0]) then Tokens(s[1..])
    else
      var n := RunLength(s);
      [s[..n]] + Tokens(s[n..])
  }

  function Concat(words: seq<string>): string
  {
    if words == [] then [] else words[0] + Concat(words[1..])
  }

  /** The word characters of `s`, in order. */
  function WordCharsOf(s: string): string
  {
    if s == [] then [] else (if WordChar(s[0]) then [s[0]] else []) + WordCharsOf(s[1..])
  }

  lemma {:induction false} WordCharsOfRun(s: string, n: nat)
    requires n <= |s| && forall i :: 0 <= i < n ==> WordChar(s[i])
    ensures WordCharsOf(s) == s[..n] + WordCharsOf(s[n..])
  {
    if n > 0 {
      WordCharsOfRun(s[1..], n - 1);
      assert s[1..][n - 1..] == s[n..];
      assert s[..n] == [s[0]] + s[1..][..n - 1];
    }
  }

  /** The tokens hold exactly the word characters of the text, in order: nothing lost, nothing added. */
  lemma {:induction false} TokensCoverWordChars(s: string)
    ensures Concat(Tokens(s)) == WordCharsOf(s)
    decreases |s|
  {
    if s == [] {
    } else if !WordChar(s[0]) {
      TokensCoverWordChars(s[1..]);
    } else {
      var n := RunLength(s);
      TokensCoverWordChars(s[n..]);
      WordCharsOfRun(s, n);
      assert Tokens(s) == [s[..n]] + Tokens(s[n..]);
      assert ([s[..n]] + Tokens(s[n..]))[1..] == Tokens(s[n..]);
    }
  }

  /**
   * The stretches of `s` around its tokens: before the first, between consecutive ones,
   * and after the last.
   */
  function Gaps(s: string): (gaps: seq<string>)
    ensures |gaps| == |Tokens(s)| + 1
    decreases |s|
  {
    if s == [] then [[]]
    else if !WordChar(s[0]) then
      var g := Gaps(s[1..]);
      [[s[0]] + g[0]] + g[1..]
    else
      [[]] + Gaps(s[RunLength(s)..])
  }

  /** The text rebuilt from its gaps and its tokens, alternating. */
  function Interleave(gaps: seq<string>, words: seq<string>): string
    requires |gaps| == |words| + 1
  {
    if words == [] then gaps[0] else gaps[0] + words[0] + Interleave(gaps[1..], words[1..])
  }

  /** A character put in front of the first gap comes out in front of the text. */
  lemma InterleaveFirstGap(c: char, g: seq<string>, t: seq<string>)
    requires |g| == |t| + 1
    ensures Interleave([[c] + g[0]] + g[1..], t) == [c] + Interleave(g, t)
  {
    var h := [[c] + g[0]] + g[1..];
    assert h[0] == [c] + g[0] && h[1..] == g[1..];
    if t != [] {
      assert Interleave(h, t) == ([c] + g[0]) + t[0] + Interleave(g[1..], t[1..]);
      assert Interleave(g, t) == g[0] + t[0] + Interleave(g[1..], t[1..]);
    }
  }

  /** A token behind an empty first gap comes out in front of the text. */
  lemma InterleaveFirstToken(w: string, g: seq<string>, t: seq<string>)
    requires |g| == |t| + 1
    ensures Interleave([[]] + g, [w] + t) == w + Interleave(g, t)
  {
    var h, u := [[]] + g, [w] + t;
    assert h[0] == [] && h[1..] == g && u[0] == w && u[1..] == t;
  }

  /** Gaps and tokens, alternating, rebuild the text. */
  lemma {:induction false} GapsRebuildText(s: string)
    ensures Interleave(Gaps(s), Tokens(s)) == s
    decreases |s|
  {
    if s == [] {
    } else if !WordChar(s[0]) {
      GapsRebuildText(s[1..]);
      InterleaveFirstGap(s[0], Gaps(s[1..]), Tokens(s[1..]));
      assert s == [s[0]] + s[1..];
    } else {
      var n := RunLength(s);
      GapsRebuildText(s[n..]);
      InterleaveFirstToken(s[..n], Gaps(s[n..]), Tokens(s[n..]));
      assert s == s[..n] + s[n..];
    }
  }

  /** Every gap is made of non-word characters only. */
  lemma {:induction false} GapsHaveNoWordChars(s: string)
    ensures forall k :: 0 <= k < |Gaps(s)| ==> forall i :: 0 <= i < |Gaps(s)[k]| ==> !WordChar(Gaps(s)[k][i])
    decreases |s|
  {
    if s == [] {
    } else if !WordChar(s[0]) {
      var g := Gaps(s[1..]);
      GapsHaveNoWordChars(s[1..]);
      assert Gaps(s) == [[s[0]] + g[0]] + g[1..];
    } else {
      GapsHaveNoWordChars(s[RunLength(s)..]);
    }
  }

  /** Two consecutive tokens are separated by a non-empty gap. */
  lemma {:induction false} GapsSeparateTokens(s: string)
    ensures forall k :: 0 < k < |Tokens(s)| ==> |Gaps(s)[k]| > 0
    decreases |s|
  {
    if s == [] {
    } else if !WordChar(s[0]) {
      var g := Gaps(s[1..]);
      GapsSeparateTokens(s[1..]);
      assert Gaps(s) == [[s[0]] + g[0]] + g[1..];
    } else {
      var n := RunLength(s);
      var g, t := Gaps(s[n..]), Tokens(s[n..]);
      GapsSeparateTokens(s[n..]);
      assert Gaps(s) == [[]] + g;
      if t != [] {
        assert s[n..] != [] && !WordChar(s[n..][0]);
        assert |g[0]| > 0;
      }
    }
  }

  /**
   * `findall(r'\w+')` returns maximal runs: the text is its tokens with gaps of non-word
   * characters around them, and consecutive tokens are always separated by at least one
   * such character, so no run of word characters is split.
   */
  lemma TokensAreMaximal(s: string)
    ensures Interleave(Gaps(s), Tokens(s)) == s
    ensures forall k :: 0 <= k < |Gaps(s)| ==> forall i :: 0 <= i < |Gaps(s)[k]| ==> !WordChar(Gaps(s)[k][i])
    ensures forall k :: 0 < k < |Tokens(s)| ==> |Gaps(s)[k]| > 0
  {
    GapsRebuildText(s);
    GapsHaveNoWordChars(s);
    GapsSeparateTokens(s);
  }

  /** The page text's words: `re.findall(r'\w+', text.lower())`. */
  function Words(text: string): (words: seq<string>)
    ensures forall k :: 0 <= k < |words| ==> forall i :: 0 <= i < |words[k]| ==> !('A' <= words[k][i] <= 'Z')
  {
    TokensAreSubstrings(Lower(text));
    Tokens(Lower(text))
  }

  /** Every token is a run of characters of the text. */
  lemma {:induction false} TokensAreSubstrings(s: string)
    ensures forall k :: 0 <= k < |Tokens(s)| ==> forall i :: 0 <= i < |Tokens(s)[k]| ==> Tokens(s)[k][i] in s
    decreases |s|
  {
    if s != [] {
      if !WordChar(s[0]) {
        TokensAreSubstrings(s[1..]);
        forall c | c in s[1..] ensures c in s { }
      } else {
        var n := RunLength(s);
        TokensAreSubstrings(s[n..]);
        forall c | c in s[n..] ensures c in s { }
        forall c | c in s[..n] ensures c in s { }
        assert Tokens(s) == [s[..n]] + Tokens(s[n..]);
      }
    }
  }

  /** The stop words of the scraper tab. */
  const StopWords: set<string> := {"the", "and", "to", "of", "in", "is", "for", "a", "with", "on", "at", "by", "an",
    "be", "this", "that", "our", "your", "we", "are", "it", "from", "or", "as", "has", "will", "can", "more",
    "about", "best", "top", "new"}

  /** A word kept by the filter. */
  predicate Kept(w: string)
  {
    w !in StopWords && |w| > 3
  }

  /** `[w for w in words if w not in stop_words and len(w) > 3]`. */
  function Filtered(words: seq<string>): (kept: seq<string>)
    ensures forall k :: 0 <= k < |kept| ==> Kept(kept[k])
    ensures |kept| <= |words|
  {
    if words == [] then []
    else (if Kept(words[0]) then [words[0]] else []) + Filtered(words[1..])
  }

  /** The filter keeps every occurrence of a kept word and drops every other word. */
  lemma {:induction false} FilteredCounts(words: seq<string>, w: string)
    ensures multiset(Filtered(words))[w] == if Kept(w) then multiset(words)[w] else 0
  {
    if words != [] {
      FilteredCounts(words[1..], w);
      assert words == [words[0]] + words[1..];
    }
  }

  /** The distinct words in the order of their first occurrence (the order a `Counter` keeps). */
  function Distinct(words: seq<string>): (d: seq<string>)
    ensures forall i, j :: 0 <= i < j < |d| ==> d[i] != d[j]
    ensures forall w :: w in d <==> w in words
  {
    if words == [] then []
    else
      var front := Distinct(words[..|words| - 1]);
      var last := words[|words| - 1];
      assert words == words[..|words| - 1] + [last];
      if last in front then front else front + [last]
  }

  /** `Counter(words).items()`: each distinct word with its number of occurrences. */
  function Counted(words: seq<string>): (pairs: seq<(string, nat)>)
    ensures |pairs| == |Distinct(words)|
    ensures forall i :: 0 <= i < |pairs| ==> pairs[i] == (Distinct(words)[i], multiset(words)[Distinct(words)[i]])
  {
    var d := Distinct(words);
    seq(|d|, i requires 0 <= i < |d| => (d[i], multiset(words)[d[i]]))
  }

  /** Counts never increase along the sequence. */
  predicate Descending(pairs: seq<(string, nat)>)
  {
    forall i, j :: 0 <= i < j < |pairs| ==> pairs[i].1 >= pairs[j].1
  }

  /** Insert `p` after every entry with a larger count and before the rest (ties stay behind `p`). */
  function Insert(p: (string, nat), sorted: seq<(string, nat)>): (r: seq<(string, nat)>)
    ensures |r| == |sorted| + 1
    ensures multiset(r) == multiset(sorted) + multiset{p}
  {
    if sorted == [] || sorted[0].1 <= p.1 then [p] + sorted
    else
      assert sorted == [sorted[0]] + sorted[1..];
      [sorted[0]] + Insert(p, sorted[1..])
  }

  /** Inserting into a sequence sorted by decreasing count keeps it sorted. */
  lemma {:induction false} InsertDescending(p: (string, nat), sorted: seq<(string, nat)>)
    requires Descending(sorted)
    ensures Descending(Insert(p, sorted))
  {
    if sorted != [] && sorted[0].1 > p.1 {
      var rest := Insert(p, sorted[1..]);
      InsertDescending(p, sorted[1..]);
      forall k | 0 <= k < |rest|
        ensures rest[k].1 <= sorted[0].1
      {
        assert rest[k] in multiset(rest);
        if rest[k] != p {
          assert rest[k] in multiset(sorted[1..]);
          var m :| 0 <= m < |sorted[1..]| && sorted[1..][m] == rest[k];
          assert sorted[m + 1] == rest[k];
        }
      }
    }
  }

  /** `sorted(pairs, key=count, reverse=True)`: a stable sort by decreasing count. */
  function SortByCount(pairs: seq<(string, nat)>): (r: seq<(string, nat)>)
    ensures multiset(r) == multiset(pairs)
    ensures |r| == |pairs|
    ensures Descending(r)
  {
    if pairs == [] then []
    else
      assert pairs == [pairs[0]] + pairs[1..];
      InsertDescending(pairs[0], SortByCount(pairs[1..]));
      Insert(pairs[0], SortByCount(pairs[1..]))
  }

  /** How many entries `most_common(10)` returns at most. */
  const TopCount: nat := 10

  /** `s[:n]`. */
  function Prefix<T>(s: seq<T>, n: nat): (r: seq<T>)
    ensures |r| == if |s| <= n then |s| else n
    ensures forall i :: 0 <= i < |r| ==> r[i] == s[i]
  {
    if |s| <= n then s else s[..n]
  }

  /** `Counter(words).most_common(n)`. */
  function MostCommon(words: seq<string>, n: nat): seq<(string, nat)>
  {
    Prefix(SortByCount(Counted(words)), n)
  }

  /** The keyword frequency table of a page text. */
  function CommonKeywords(text: string): seq<(string, nat)>
  {
    MostCommon(Filtered(Words(text)), TopCount)
  }

  /** No word is listed twice. */
  predicate DistinctWords(pairs: seq<(string, nat)>)
  {
    forall i, j :: 0 <= i < j < |pairs| ==> pairs[i].0 != pairs[j].0
  }

  lemma {:induction false} CountAtMostOne<T>(s: seq<T>, x: T)
    requires forall a, b :: 0 <= a < b < |s| ==> s[a] != s[b]
    ensures multiset(s)[x] <= 1
  {
    if s != [] {
      CountAtMostOne(s[1..], x);
      assert s == [s[0]] + s[1..];
      if s[0] == x {
        assert x !in s[1..];
      }
    }
  }

  lemma CountAtLeastTwo<T>(t: seq<T>, i: nat, j: nat)
    requires i < j < |t| && t[i] == t[j]
    ensures multiset(t)[t[i]] >= 2
  {
    assert t == t[..i] + [t[i]] + t[i + 1..j] + [t[j]] + t[j + 1..];
  }

  /** Sorting the counted pairs keeps each word once. */
  lemma SortedWordsDistinct(pairs: seq<(string, nat)>, sorted: seq<(string, nat)>)
    requires DistinctWords(pairs) && multiset(sorted) == multiset(pairs)
    ensures DistinctWords(sorted)
  {
    forall i, j | 0 <= i < j < |sorted|
      ensures sorted[i].0 != sorted[j].0
    {
      if sorted[i].0 == sorted[j].0 {
        assert sorted[i] in multiset(pairs) && sorted[j] in multiset(pairs);
        var a :| 0 <= a < |pairs| && pairs[a] == sorted[i];
        var b :| 0 <= b < |pairs| && pairs[b] == sorted[j];
        assert a == b;
        CountAtLeastTwo(sorted, i, j);
        CountAtMostOne(pairs, sorted[i]);
        assert false;
      }
    }
  }

  /** `Counter(words).items()` lists every word once, with its exact count. */
  lemma CountedFacts(words: seq<string>)
    ensures DistinctWords(Counted(words))
    ensures forall q :: q in Counted(words) ==> q.0 in words && q.1 == multiset(words)[q.0] && q.1 >= 1
  {
    var d := Distinct(words);
    forall q | q in Counted(words)
      ensures q.0 in words && q.1 == multiset(words)[q.0] && q.1 >= 1
    {
      var k :| 0 <= k < |Counted(words)| && Counted(words)[k] == q;
      assert q.0 == d[k] && d[k] in d;
    }
  }

  /** Every word of the input is counted. */
  lemma CountedCovers(words: seq<string>, w: string)
    requires w in words
    ensures (w, multiset(words)[w]) in Counted(words)
  {
    var d := Distinct(words);
    var k :| 0 <= k < |d| && d[k] == w;
    assert Counted(words)[k] == (w, multiset(words)[w]);
  }

  /**
   * `most_common(n)`: at most `n` entries, as many as there are distinct words if fewer;
   * each a word of the input with its exact number of occurrences; no word twice; counts
   * non-increasing.
   */
  lemma MostCommonSpec(words: seq<string>, n: nat)
    ensures var r := MostCommon(words, n);
      && |r| == (if |Distinct(words)| <= n then |Distinct(words)| else n)
      && (forall i :: 0 <= i < |r| ==> r[i].0 in words && r[i].1 == multiset(words)[r[i].0] && r[i].1 >= 1)
      && DistinctWords(r)
      && Descending(r)
  {
    var pairs := Counted(words);
    CountedFacts(words);
    SortedPrefix(words, pairs, SortByCount(pairs), n);
  }

  /** What a prefix of the counted pairs, sorted by decreasing count, keeps of them. */
  lemma SortedPrefix(words: seq<string>, pairs: seq<(string, nat)>, sorted: seq<(string, nat)>, n: nat)
    requires DistinctWords(pairs)
    requires forall q :: q in pairs ==> q.0 in words && q.1 == multiset(words)[q.0] && q.1 >= 1
    requires multiset(sorted) == multiset(pairs) && Descending(sorted)
    ensures var r := Prefix(sorted, n);
      && (forall i :: 0 <= i < |r| ==> r[i].0 in words && r[i].1 == multiset(words)[r[i].0] && r[i].1 >= 1)
      && DistinctWords(r)
      && Descending(r)
  {
    SortedWordsDistinct(pairs, sorted);
    forall i | 0 <= i < |sorted|
      ensures sorted[i] in pairs
    {
      assert sorted[i] in multiset(pairs);
    }
  }

  /**
   * A word `most_common(n)` leaves out occurs no more often than the last word it lists,
   * and then all `n` places are taken.
   */
  lemma MostCommonLeavesOutLess(words: seq<string>, n: nat, w: string)
    requires w in words
    requires forall i :: 0 <= i < |MostCommon(words, n)| ==> MostCommon(words, n)[i].0 != w
    ensures |MostCommon(words, n)| == n
    ensures n > 0 ==> multiset(words)[w] <= MostCommon(words, n)[n - 1].1
  {
    var sorted := SortByCount(Counted(words));
    CountedCovers(words, w);
    assert (w, multiset(words)[w]) in multiset(Counted(words));
    assert MostCommon(words, n) == Prefix(sorted, n);
    LeftOutOfPrefix(sorted, n, (w, multiset(words)[w]));
  }

  /** An entry of a sorted sequence missing from its first `n` places comes after them. */
  lemma LeftOutOfPrefix(sorted: seq<(string, nat)>, n: nat, p: (string, nat))
    requires Descending(sorted) && p in multiset(sorted)
    requires forall i :: 0 <= i < |sorted| && i < n ==> sorted[i].0 != p.0
    ensures |sorted| > n && (n > 0 ==> p.1 <= sorted[n - 1].1)
  {
    var m :| 0 <= m < |sorted| && sorted[m] == p;
    if |sorted| <= n || m < n {
      assert false;
    }
  }

  /**
   * The keyword frequency table: at most ten entries, each a word of the lower-cased page
   * text that is not a stop word and is longer than three characters, with the exact
   * number of times it occurs; counts non-increasing.
   */
  lemma CommonKeywordsSpec(text: string)
    ensures var r := CommonKeywords(text);
      && |r| <= TopCount
      && (forall i :: 0 <= i < |r| ==>
            Kept(r[i].0) && r[i].0 in Words(text) && r[i].1 == multiset(Words(text))[r[i].0] && r[i].1 >= 1)
      && Descending(r)
  {
    var words := Filtered(Words(text));
    MostCommonSpec(words, TopCount);
    var r := CommonKeywords(text);
    forall i | 0 <= i < |r|
      ensures Kept(r[i].0) && r[i].0 in Words(text) && r[i].1 == multiset(Words(text))[r[i].0]
    {
      var k :| 0 <= k < |words| && words[k] == r[i].0;
      FilteredCounts(Words(text), r[i].0);
    }
  }
}
