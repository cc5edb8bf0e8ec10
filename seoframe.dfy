/**
 * `process_seo_dataframe`: the dashboard's normalisation of an uploaded keyword export
 * (Semrush, Ahrefs or Search Console) into one fixed set of columns, with numeric
 * cleaning, a market segment per keyword and three derived scores.
 *
 * A data frame is modelled column by column: a height, and named columns of that many
 * cells each. The k-means segmentation is an input (its labels, or the exception it
 * raised); rounding is not modelled.
 */
module SeoFrame {
  import opened Common

  /** One cell: a number, a string, or a missing value (`NaN`/`None`). */
  datatype Cell = Num(value: real) | Text(text: string) | Missing

  datatype Column = Column(name: string, cells: seq<Cell>)

  datatype Table = Table(height: nat, columns: seq<Column>)

  /** Every column has one cell per row. */
  predicate WellFormed(t: Table)
  {
    forall i :: 0 <= i < |t.columns| ==> |t.columns[i].cells| == t.height
  }

  function Names(t: Table): (names: seq<string>)
    ensures |names| == |t.columns|
    ensures forall i :: 0 <= i < |t.columns| ==> names[i] == t.columns[i].name
  {
    seq(|t.columns|, i requires 0 <= i < |t.columns| => t.columns[i].name)
  }

  /** No two of the columns share a name. */
  predicate DistinctNames(columns: seq<Column>)
  {
    forall i, j :: 0 <= i < j < |columns| ==> columns[i].name != columns[j].name
  }

  /** `df.empty`: no rows or no columns. */
  predicate IsEmpty(t: Table)
  {
    t.height == 0 || |t.columns| == 0
  }

  /** The columns of the frame returned for an empty input. */
  const EmptyColumns: seq<string> := ["keyword", "Volume", "Keyword Difficulty", "Intent", "SEO Score",
    "AI Overview", "ChatGPT", "Gemini", "Bing", "CPC (INR)"]

  /** The empty frame with the ten fixed columns. */
  function EmptyFrame(): (t: Table)
    ensures t.height == 0 && Names(t) == EmptyColumns && WellFormed(t)
  {
    var t := Table(0, seq(|EmptyColumns|, i requires 0 <= i < |EmptyColumns| => Column(EmptyColumns[i], [])));
    assert Names(t) == EmptyColumns;
    t
  }

  // ---------------------------------------------------------------------------------
  // Renaming

  /** The alias table, in the order it is written: export header, normalised name. */
  const NormMap: seq<(string, string)> := [
    ("Keyword", "keyword"), ("keyword", "keyword"), ("Queries", "keyword"),
    ("Search Volume", "Volume"), ("Volume", "Volume"), ("Avg. Monthly Searches", "Volume"),
    ("Avg. monthly searches", "Volume"),
    ("KD", "Keyword Difficulty"), ("Keyword Difficulty", "Keyword Difficulty"),
    ("Common KD", "Keyword Difficulty"), ("Difficulty", "Keyword Difficulty"),
    ("CPC", "CPC (INR)"), ("CPC (INR)", "CPC (INR)"), ("Cost Per Click", "CPC (INR)"),
    ("Intent", "Intent"), ("intent", "Intent"), ("User Intent", "Intent")]

  /**
   * The same aliases keyed by lower-case header: the normalised name a header gets
   * when compared case-insensitively, or `None` if it is not an alias.
   */
  function Alias(lowered: string): Option<string>
  {
    if lowered == "keyword" || lowered == "queries" then Some("keyword")
    else if lowered == "search volume" || lowered == "volume" || lowered == "avg. monthly searches" then Some("Volume")
    else if lowered == "kd" || lowered == "keyword difficulty" || lowered == "common kd" || lowered == "difficulty" then
      Some("Keyword Difficulty")
    else if lowered == "cpc" || lowered == "cpc (inr)" || lowered == "cost per click" then Some("CPC (INR)")
    else if lowered == "intent" || lowered == "user intent" then Some("Intent")
    else None
  }

  /** The name a column has after renaming. */
  function CanonicalName(name: string): string
  {
    match Alias(Lower(name))
    case Some(target) => target
    case None => name
  }

  /** The lower-cased headers of the alias table. */
  const LoweredKeys: seq<string> := [
    "keyword", "keyword", "queries",
    "search volume", "volume", "avg. monthly searches", "avg. monthly searches",
    "kd", "keyword difficulty", "common kd", "difficulty",
    "cpc", "cpc (inr)", "cost per click",
    "intent", "intent", "user intent"]

  lemma LowerKeywordAndVolumeHeaders()
    ensures Lower("Keyword") == "keyword"
    ensures Lower("keyword") == "keyword"
    ensures Lower("Queries") == "queries"
    ensures Lower("Search Volume") == "search volume"
    ensures Lower("Volume") == "volume"
  {
  }

  lemma LowerMonthlySearchesHeader()
    ensures Lower("Avg. Monthly Searches") == "avg. monthly searches"
  {
  }

  lemma LowerMonthlySearchesLowerHeader()
    ensures Lower("Avg. monthly searches") == "avg. monthly searches"
  {
  }

  lemma LowerDifficultyHeaders()
    ensures Lower("KD") == "kd"
    ensures Lower("Keyword Difficulty") == "keyword difficulty"
    ensures Lower("Common KD") == "common kd"
    ensures Lower("Difficulty") == "difficulty"
  {
  }

  lemma LowerCpcAndIntentHeaders()
    ensures Lower("CPC") == "cpc"
    ensures Lower("CPC (INR)") == "cpc (inr)"
    ensures Lower("Cost Per Click") == "cost per click"
    ensures Lower("Intent") == "intent"
    ensures Lower("intent") == "intent"
    ensures Lower("User Intent") == "user intent"
  {
  }

  lemma LoweredKeysAreLowered()
    ensures |LoweredKeys| == |NormMap|
    ensures forall i :: 0 <= i < |NormMap| ==> Lower(NormMap[i].0) == LoweredKeys[i]
  {
    LowerKeywordAndVolumeHeaders();
    LowerMonthlySearchesHeader();
    LowerMonthlySearchesLowerHeader();
    LowerDifficultyHeaders();
    LowerCpcAndIntentHeaders();
  }

  /** Where in the alias table a lower-case name `Alias` knows is first listed. */
  function AliasIndex(lowered: string): (i: nat)
    requires Alias(lowered).Some?
    ensures i < |LoweredKeys| && LoweredKeys[i] == lowered
  {
    if lowered == "keyword" then 0 else if lowered == "queries" then 2
    else if lowered == "search volume" then 3 else if lowered == "volume" then 4
    else if lowered == "avg. monthly searches" then 5
    else if lowered == "kd" then 7 else if lowered == "keyword difficulty" then 8
    else if lowered == "common kd" then 9 else if lowered == "difficulty" then 10
    else if lowered == "cpc" then 11 else if lowered == "cpc (inr)" then 12
    else if lowered == "cost per click" then 13
    else if lowered == "intent" then 14 else 16
  }

  /** Every header of the alias table is renamed to its own target by `Alias`. */
  lemma NormMapTargetsMatchAlias()
    ensures forall i :: 0 <= i < |NormMap| ==> Alias(Lower(NormMap[i].0)) == Some(NormMap[i].1)
  {
    LoweredKeysAreLowered();
    forall i | 0 <= i < |NormMap|
      ensures Alias(LoweredKeys[i]) == Some(NormMap[i].1)
    {
    }
  }

  /**
   * The alias table and `Alias` agree: every header maps to its own target, and every
   * lower-case name `Alias` knows is the lower-cased form of some header. So headers
   * equal up to case share a target, and the order the table is scanned in does not
   * change the renaming.
   */
  lemma NormMapMatchesAlias()
    ensures AgreesWithAlias(NormMap)
  {
    NormMapTargetsMatchAlias();
    LoweredKeysAreLowered();
    forall lowered | Alias(lowered).Some?
      ensures exists i :: 0 <= i < |NormMap| && Lower(NormMap[i].0) == lowered
    {
      var i := AliasIndex(lowered);
      assert Lower(NormMap[i].0) == lowered;
    }
  }

  /**
   * An alias table agrees with `Alias`: every header is renamed to its own target, and
   * every lower-case name `Alias` knows is the lower-cased form of some header.
   */
  ghost predicate AgreesWithAlias(table: seq<(string, string)>)
  {
    && (forall i :: 0 <= i < |table| ==> Alias(Lower(table[i].0)) == Some(table[i].1))
    && (forall lowered :: Alias(lowered).Some? ==> exists i :: 0 <= i < |table| && Lower(table[i].0) == lowered)
  }

  /** The target of the last header of `table` equal to `lowered` up to case, if any. */
  function LastMatch(table: seq<(string, string)>, lowered: string): Option<string>
  {
    if table == [] then None
    else if Lower(table[|table| - 1].0) == lowered then Some(table[|table| - 1].1)
    else LastMatch(table[..|table| - 1], lowered)
  }

  /** `LastMatch` finds a target exactly when some header matches, and the target is that header's. */
  lemma {:induction false} LastMatchFinds(table: seq<(string, string)>, lowered: string)
    ensures LastMatch(table, lowered).Some? <==> exists k :: 0 <= k < |table| && Lower(table[k].0) == lowered
    ensures LastMatch(table, lowered).Some? ==>
      exists k :: 0 <= k < |table| && Lower(table[k].0) == lowered && table[k].1 == LastMatch(table, lowered).value
  {
    if table != [] {
      var front := table[..|table| - 1];
      LastMatchFinds(front, lowered);
      if Lower(table[|table| - 1].0) != lowered {
        assert forall k :: 0 <= k < |front| ==> front[k] == table[k];
      }
    }
  }

  /** With a table that agrees with `Alias`, the last match is the alias, whichever header it comes from. */
  lemma LastMatchIsAlias(table: seq<(string, string)>, lowered: string)
    requires AgreesWithAlias(table)
    ensures LastMatch(table, lowered) == Alias(lowered)
  {
    LastMatchFinds(table, lowered);
  }

  /**
   * The loop that builds `final_map` from the alias table (`NormMap`): for every column,
   * `ApplyAliases` compares every alias header with it case-insensitively. Exactly the
   * columns some header matches get an entry: the target of the last such header.
   */
  method BuildFinalMap(table: seq<(string, string)>, columns: seq<string>) returns (finalMap: map<string, string>)
    ensures forall c :: c in finalMap <==> c in columns && LastMatch(table, Lower(c)).Some?
    ensures forall c :: c in finalMap ==> finalMap[c] == LastMatch(table, Lower(c)).value
  {
    finalMap := map[];
    var i := 0;
    while i < |columns|
      invariant 0 <= i <= |columns|
      invariant forall c :: c in finalMap <==> c in columns[..i] && LastMatch(table, Lower(c)).Some?
      invariant forall c :: c in finalMap ==> finalMap[c] == LastMatch(table, Lower(c)).value
    {
      finalMap := ApplyAliases(table, columns[i], finalMap);
      assert columns[..i + 1] == columns[..i] + [columns[i]];
      i := i + 1;
    }
    assert columns[..i] == columns;
  }

  /** Renaming with the map built from the alias table renames every column to its canonical name. */
  lemma RenameWithFinalMap(df: Table, finalMap: map<string, string>)
    requires forall c :: c in finalMap <==> c in Names(df) && LastMatch(NormMap, Lower(c)).Some?
    requires forall c :: c in finalMap ==> finalMap[c] == LastMatch(NormMap, Lower(c)).value
    ensures RenameWith(df, finalMap) == RenameColumns(df)
  {
    NormMapMatchesAlias();
    forall i | 0 <= i < |df.columns|
      ensures RenameWith(df, finalMap).columns[i] == RenameColumns(df).columns[i]
    {
      var name := df.columns[i].name;
      LastMatchIsAlias(NormMap, Lower(name));
      assert name in Names(df) by {
        assert Names(df)[i] == name;
      }
    }
  }

  /**
   * The inner loop for column `c`: every header of `table` equal to `c` up to case sets
   * `final_map[c]` to its target, so the last such header decides.
   */
  method ApplyAliases(table: seq<(string, string)>, c: string, finalMap: map<string, string>)
    returns (updated: map<string, string>)
    ensures updated == match LastMatch(table, Lower(c)) case Some(target) => finalMap[c := target] case None => finalMap
  {
    var lowered := Lower(c);
    updated := finalMap;
    var j := 0;
    while j < |table|
      invariant 0 <= j <= |table|
      invariant updated == match LastMatch(table[..j], lowered) case Some(target) => finalMap[c := target] case None => finalMap
    {
      var (key, target) := table[j];
      assert table[..j + 1][..j] == table[..j];
      if lowered == Lower(key) {
        updated := finalMap[c := target];
      }
      j := j + 1;
    }
    assert table[..j] == table;
  }

  /** `df.rename(columns=m)`: columns listed in `m` take their new name, the others keep theirs. */
  function RenameWith(t: Table, m: map<string, string>): Table
  {
    Table(t.height, seq(|t.columns|, i requires 0 <= i < |t.columns| =>
      var c := t.columns[i]; Column(if c.name in m then m[c.name] else c.name, c.cells)))
  }

  /** The frame after renaming: every column under its canonical name, cells and order unchanged. */
  function RenameColumns(t: Table): (r: Table)
    ensures r.height == t.height && |r.columns| == |t.columns|
    ensures forall i :: 0 <= i < |t.columns| ==> r.columns[i] == Column(CanonicalName(t.columns[i].name), t.columns[i].cells)
  {
    Table(t.height, seq(|t.columns|, i requires 0 <= i < |t.columns| =>
      Column(CanonicalName(t.columns[i].name), t.columns[i].cells)))
  }

  /**
   * A column is renamed to `v` exactly when its lower-cased name is the lower-cased form of
   * some alias header whose target is `v` (whichever such header is picked), and a column
   * no header matches keeps its name.
   */
  lemma RenameMatchesAliasTable(t: Table, i: nat, k: nat)
    requires i < |t.columns| && k < |NormMap|
    ensures Lower(NormMap[k].0) == Lower(t.columns[i].name) ==> RenameColumns(t).columns[i].name == NormMap[k].1
    ensures (forall j :: 0 <= j < |NormMap| ==> Lower(NormMap[j].0) != Lower(t.columns[i].name)) ==>
      RenameColumns(t).columns[i].name == t.columns[i].name
  {
    NormMapMatchesAlias();
  }

  // ---------------------------------------------------------------------------------
  // Required columns

  /** How a missing required column is filled: with row labels, or with one constant. */
  datatype Default = RowLabels | Constant(cell: Cell)

  /** The required columns and their defaults, in the order they are checked. */
  const Required: seq<(string, Default)> := [
    ("keyword", RowLabels), ("Volume", Constant(Num(100.0))), ("Keyword Difficulty", Constant(Num(50.0))),
    ("Intent", Constant(Text("Informational"))), ("SEO Score", Constant(Num(50.0))),
    ("AI Overview", Constant(Num(40.0))), ("ChatGPT", Constant(Num(30.0))), ("Gemini", Constant(Num(35.0))),
    ("Perplexity", Constant(Num(20.0))), ("Bing", Constant(Num(25.0))), ("CPC (INR)", Constant(Num(10.0)))]

  /** `"Keyword " + str(i)` for row `i` of a frame with the default integer index. */
  function RowLabel(i: nat): string
  {
    "Keyword " + NatToString(i)
  }

  /** The cells a missing required column is filled with. */
  function DefaultCells(d: Default, height: nat): (cells: seq<Cell>)
    ensures |cells| == height
  {
    match d
    case RowLabels => seq(height, i requires 0 <= i < height => Text(RowLabel(i)))
    case Constant(c) => seq(height, i requires 0 <= i < height => c)
  }

  /** The columns added for the first `n` required names that `t` lacks, in order. */
  function MissingColumns(t: Table, n: nat): (added: seq<Column>)
    requires n <= |Required|
    ensures forall c :: c in added ==> c.name !in Names(t) && |c.cells| == t.height
    ensures forall c :: c in added ==> exists j :: 0 <= j < n && c == Column(Required[j].0, DefaultCells(Required[j].1, t.height))
  {
    if n == 0 then []
    else
      var (name, default) := Required[n - 1];
      MissingColumns(t, n - 1) + if name in Names(t) then [] else [Column(name, DefaultCells(default, t.height))]
  }

  /** The frame once every required column exists: the missing ones are appended. */
  function Synthesised(t: Table): Table
  {
    Table(t.height, t.columns + MissingColumns(t, |Required|))
  }

  lemma RequiredNamesDistinct()
    ensures forall i, j :: 0 <= i < j < |Required| ==> Required[i].0 != Required[j].0
  {
  }

  /**
   * The loop over `required`: each name not yet a column is added with its default.
   * Earlier additions never supply a later name, so this appends `MissingColumns`.
   */
  method SynthesiseRequired(t: Table) returns (r: Table)
    ensures r == Synthesised(t)
  {
    r := t;
    var i := 0;
    while i < |Required|
      invariant 0 <= i <= |Required|
      invariant r == Table(t.height, t.columns + MissingColumns(t, i))
    {
      var (name, default) := Required[i];
      SynthesisStep(t, i);
      if name !in Names(r) {
        r := Table(r.height, r.columns + [Column(name, DefaultCells(default, r.height))]);
      }
      i := i + 1;
    }
  }

  /**
   * One round of the loop: the columns added for earlier required names never carry
   * this one, so it is added exactly when the original frame lacks it.
   */
  lemma SynthesisStep(t: Table, i: nat)
    requires i < |Required|
    ensures Required[i].0 in Names(Table(t.height, t.columns + MissingColumns(t, i))) <==> Required[i].0 in Names(t)
    ensures t.columns + MissingColumns(t, i + 1) ==
      if Required[i].0 in Names(t) then t.columns + MissingColumns(t, i)
      else (t.columns + MissingColumns(t, i)) + [Column(Required[i].0, DefaultCells(Required[i].1, t.height))]
  {
    RequiredNamesDistinct();
    var added := MissingColumns(t, i);
    assert Names(Table(t.height, t.columns + added)) == Names(t) + Names(Table(t.height, added));
  }

  lemma {:induction false} MissingColumnsCover(t: Table, n: nat)
    requires n <= |Required|
    ensures forall j :: 0 <= j < n ==>
      Required[j].0 in Names(t) || Column(Required[j].0, DefaultCells(Required[j].1, t.height)) in MissingColumns(t, n)
  {
    if n > 0 {
      MissingColumnsCover(t, n - 1);
    }
  }

  /**
   * After synthesis every required column exists; the columns already there come first
   * and are untouched; each added column is a required name the frame lacked, filled
   * with its default; and every column still has one cell per row.
   */
  lemma SynthesisedShape(t: Table)
    ensures var r := Synthesised(t);
      && r.height == t.height
      && r.columns[..|t.columns|] == t.columns
      && (forall j :: 0 <= j < |Required| ==> Required[j].0 in Names(r))
      && (forall c :: c in r.columns[|t.columns|..] ==>
            c.name !in Names(t) && exists j :: 0 <= j < |Required| && c == Column(Required[j].0, DefaultCells(Required[j].1, t.height)))
      && (WellFormed(t) ==> WellFormed(r))
  {
    var r := Synthesised(t);
    var added := MissingColumns(t, |Required|);
    assert r.columns[..|t.columns|] == t.columns;
    assert r.columns[|t.columns|..] == added;
    MissingColumnsCover(t, |Required|);
    SynthesisedNames(t);
    if WellFormed(t) {
      forall i | 0 <= i < |r.columns|
        ensures |r.columns[i].cells| == r.height
      {
        if i >= |t.columns| {
          assert r.columns[i] in added;
        }
      }
    }
  }

  /** After synthesis every required name is a column name. */
  lemma SynthesisedNames(t: Table)
    ensures forall j :: 0 <= j < |Required| ==> Required[j].0 in Names(Synthesised(t))
  {
    var r := Synthesised(t);
    var added := MissingColumns(t, |Required|);
    assert r.columns == t.columns + added;
    MissingColumnsCover(t, |Required|);
    forall j | 0 <= j < |Required|
      ensures Required[j].0 in Names(r)
    {
      if Required[j].0 in Names(t) {
        var k :| 0 <= k < |t.columns| && Names(t)[k] == Required[j].0;
        assert Names(r)[k] == Required[j].0;
      } else {
        var c := Column(Required[j].0, DefaultCells(Required[j].1, t.height));
        var k :| 0 <= k < |added| && added[k] == c;
        assert Names(r)[|t.columns| + k] == Required[j].0;
      }
    }
  }

  /** Distinct rows get distinct synthesised keywords. */
  lemma RowLabelsDistinct(i: nat, j: nat)
    requires i != j
    ensures RowLabel(i) != RowLabel(j)
  {
    DigitsValueOfNatToString(i);
    DigitsValueOfNatToString(j);
    assert RowLabel(i)[8..] == NatToString(i);
    assert RowLabel(j)[8..] == NatToString(j);
  }

  /** A frame without a keyword column gets one labelling row `i` as "Keyword i". */
  lemma MissingKeywordGetsRowLabels(t: Table)
    requires "keyword" !in Names(t)
    ensures exists k ::
      && |t.columns| <= k < |Synthesised(t).columns|
      && Synthesised(t).columns[k].name == "keyword"
      && Synthesised(t).columns[k].cells == seq(t.height, i requires 0 <= i < t.height => Text(RowLabel(i)))
  {
    MissingColumnsCover(t, |Required|);
    var added := MissingColumns(t, |Required|);
    var c := Column(Required[0].0, DefaultCells(Required[0].1, t.height));
    assert c in added;
    var k :| 0 <= k < |added| && added[k] == c;
    assert Synthesised(t).columns[|t.columns| + k] == c;
  }

  // ---------------------------------------------------------------------------------
  // Numeric cleaning

  /** The columns coerced to numbers, in the order they are processed. */
  const NumericTargets: seq<string> := ["Volume", "Keyword Difficulty", "CPC (INR)", "SEO Score", "ChatGPT",
    "Gemini", "Bing", "AI Overview", "Perplexity"]

  /** Message of the `TypeError` `pd.to_numeric` raises when handed a frame instead of a column. */
  const ToNumericError: string := "arg must be a list, tuple, 1-d array, or Series"

  predicate AllDigits(s: string)
  {
    forall i :: 0 <= i < |s| ==> IsDigit(s[i])
  }

  /** The index of the first `.` in `s`, or `|s|`. */
  function DotIndex(s: string): (d: nat)
    ensures d <= |s|
    ensures forall i :: 0 <= i < d ==> s[i] != '.'
    ensures d < |s| ==> s[d] == '.'
  {
    if s == [] then 0 else if s[0] == '.' then 0 else 1 + DotIndex(s[1..])
  }

  function Pow10(n: nat): (p: nat)
    ensures p >= 1
  {
    if n == 0 then 1 else 10 * Pow10(n - 1)
  }

  /** An unsigned decimal: digits, optionally a point and more digits, at least one digit in all. */
  function ParseUnsigned(s: string): Option<real>
  {
    var d := DotIndex(s);
    var whole, fraction := s[..d], if d < |s| then s[d + 1..] else [];
    if AllDigits(whole) && AllDigits(fraction) && |whole| + |fraction| > 0 then
      Some(DigitsValue(whole) as real + DigitsValue(fraction) as real / Pow10(|fraction|) as real)
    else None
  }

  /** The number a string spells, when it is an optionally signed decimal. */
  function ParseNumber(s: string): Option<real>
  {
    if |s| > 0 && s[0] == '-' then
      match ParseUnsigned(s[1..])
      case Some(v) => Some(-v)
      case None => None
    else if |s| > 0 && s[0] == '+' then ParseUnsigned(s[1..])
    else ParseUnsigned(s)
  }

  /** `pd.to_numeric(errors='coerce').fillna(0)` on one cell. */
  function ToNumber(c: Cell): real
  {
    match c
    case Num(v) => v
    case Text(s) => (match ParseNumber(s) case Some(v) => v case None => 0.0)
    case Missing => 0.0
  }

  function CoerceCells(cells: seq<Cell>): (r: seq<Cell>)
    ensures |r| == |cells|
    ensures forall i :: 0 <= i < |cells| ==> r[i] == Num(ToNumber(cells[i]))
  {
    seq(|cells|, i requires 0 <= i < |cells| => Num(ToNumber(cells[i])))
  }

  /** More than one column carries `name`, so `df[name]` is a frame, not a column. */
  predicate Duplicated(t: Table, name: string)
  {
    exists i, j :: 0 <= i < j < |t.columns| && t.columns[i].name == name && t.columns[j].name == name
  }

  /** The index of the first column named `name`. */
  function IndexOf(t: Table, name: string): (k: nat)
    requires name in Names(t)
    ensures k < |t.columns| && t.columns[k].name == name
    ensures forall i :: 0 <= i < k ==> t.columns[i].name != name
  {
    var k :| 0 <= k < |t.columns| && t.columns[k].name == name;
    FirstIndex(t, name, k)
  }

  function FirstIndex(t: Table, name: string, bound: nat): (k: nat)
    requires bound < |t.columns| && t.columns[bound].name == name
    ensures k < |t.columns| && t.columns[k].name == name
    ensures forall i :: 0 <= i < k ==> t.columns[i].name != name
  {
    if exists i :: 0 <= i < bound && t.columns[i].name == name then
      var i :| 0 <= i < bound && t.columns[i].name == name;
      FirstIndex(t, name, i)
    else bound
  }

  /** `df[name]`: the cells of the column named `name`. */
  function ColumnCells(t: Table, name: string): seq<Cell>
    requires name in Names(t)
  {
    t.columns[IndexOf(t, name)].cells
  }

  /** `df[name] = cells`: overwrite the column(s) named `name`, or append a new column. */
  function SetColumn(t: Table, name: string, cells: seq<Cell>): (r: Table)
    ensures r.height == t.height
  {
    if name in Names(t) then
      Table(t.height, seq(|t.columns|, i requires 0 <= i < |t.columns| =>
        if t.columns[i].name == name then Column(name, cells) else t.columns[i]))
    else Table(t.height, t.columns + [Column(name, cells)])
  }

  /** The column with its cells coerced when its name is one of `targets`, else untouched. */
  function CoerceIfTarget(c: Column, targets: seq<string>): Column
  {
    if c.name in targets then Column(c.name, CoerceCells(c.cells)) else c
  }

  /** Every column named in `targets` with its cells coerced; the other columns untouched. */
  function CoerceAll(t: Table, targets: seq<string>): (r: Table)
    ensures r.height == t.height && |r.columns| == |t.columns|
    ensures forall i :: 0 <= i < |t.columns| ==> r.columns[i] == CoerceIfTarget(t.columns[i], targets)
  {
    Table(t.height, seq(|t.columns|, i requires 0 <= i < |t.columns| => CoerceIfTarget(t.columns[i], targets)))
  }

  /** The cleaning loop's effect: the coerced frame, or the `TypeError` of a duplicated target. */
  function Coerced(t: Table, targets: seq<string>): Result<Table>
  {
    if exists k :: 0 <= k < |targets| && Duplicated(t, targets[k]) then Err(ToNumericError)
    else Ok(CoerceAll(t, targets))
  }

  /** Overwriting a column that occurs once touches exactly that column. */
  lemma SetUniqueColumn(t: Table, name: string, cells: seq<Cell>, i: nat)
    requires name in Names(t) && !Duplicated(t, name) && i < |t.columns|
    ensures SetColumn(t, name, cells).columns[i] == if t.columns[i].name == name then Column(name, cells) else t.columns[i]
    ensures t.columns[i].name == name ==> ColumnCells(t, name) == t.columns[i].cells
  {
    var k := IndexOf(t, name);
    if t.columns[i].name == name && i != k {
      assert false;
    }
  }

  /** Cleaning a column twice is cleaning it once: numbers stay as they are. */
  lemma CoerceCellsIdempotent(cells: seq<Cell>)
    ensures CoerceCells(CoerceCells(cells)) == CoerceCells(cells)
  {
  }

  /**
   * The cleaning loop over `numeric_targets` (passed as `targets`): each target present is
   * coerced in place; a target held by two columns makes `pd.to_numeric` raise.
   */
  method CoerceNumeric(t: Table, targets: seq<string>) returns (r: Result<Table>)
    ensures r == Coerced(t, targets)
  {
    var current := t;
    var k := 0;
    while k < |targets|
      invariant 0 <= k <= |targets|
      invariant forall j :: 0 <= j < k ==> !Duplicated(t, targets[j])
      invariant current.height == t.height && |current.columns| == |t.columns|
      invariant forall i :: 0 <= i < |t.columns| ==> current.columns[i] == CoerceIfTarget(t.columns[i], targets[..k])
    {
      var name := targets[k];
      assert targets[..k + 1] == targets[..k] + [name];
      assert Names(current) == Names(t);
      if name in Names(current) {
        if Duplicated(current, name) {
          assert Duplicated(t, name);
          return Err(ToNumericError);
        }
        var cells := CoerceCells(ColumnCells(current, name));
        ghost var before := current;
        current := SetColumn(current, name, cells);
        forall i | 0 <= i < |t.columns|
          ensures current.columns[i] == CoerceIfTarget(t.columns[i], targets[..k + 1])
        {
          SetUniqueColumn(before, name, cells, i);
          CoerceCellsIdempotent(t.columns[i].cells);
        }
      }
      k := k + 1;
    }
    assert targets[..k] == targets;
    assert current.columns == CoerceAll(t, targets).columns;
    return Ok(current);
  }

  // ---------------------------------------------------------------------------------
  // Frame plumbing

  /** Coercion renames nothing and keeps every column one cell per row. */
  lemma CoerceAllShape(t: Table, targets: seq<string>)
    ensures Names(CoerceAll(t, targets)) == Names(t)
    ensures WellFormed(t) ==> WellFormed(CoerceAll(t, targets))
  {
  }

  /**
   * `df[name] = cells` keeps every other column where it was, leaves `name` in the frame
   * holding `cells`, and adds at most one column (at the end).
   */
  lemma SetColumnShape(t: Table, name: string, cells: seq<Cell>)
    ensures var r := SetColumn(t, name, cells);
      && |t.columns| <= |r.columns| <= |t.columns| + 1
      && (forall i :: 0 <= i < |t.columns| ==> r.columns[i].name == t.columns[i].name)
      && (forall i :: 0 <= i < |t.columns| && t.columns[i].name != name ==> r.columns[i] == t.columns[i])
      && (forall i :: 0 <= i < |r.columns| && r.columns[i].name == name ==> r.columns[i].cells == cells)
      && (forall i :: |t.columns| <= i < |r.columns| ==> r.columns[i] == Column(name, cells))
      && name in Names(r)
      && (forall n :: n in Names(t) ==> n in Names(r))
      && (WellFormed(t) && |cells| == t.height ==> WellFormed(r))
  {
    var r := SetColumn(t, name, cells);
    if name in Names(t) {
      var k :| 0 <= k < |t.columns| && Names(t)[k] == name;
      assert Names(r)[k] == name;
    } else {
      assert Names(r)[|t.columns|] == name;
    }
    forall n | n in Names(t)
      ensures n in Names(r)
    {
      var k :| 0 <= k < |t.columns| && Names(t)[k] == n;
      assert Names(r)[k] == n;
    }
  }

  // ---------------------------------------------------------------------------------
  // Market segment and derived scores

  /** `cluster_map`: the segment named by each k-means label. */
  const SegmentNames: seq<string> := ["Low Competition/Low Vol", "High Value Targets", "Competitive Giants",
    "Niche Opportunities", "Growth Potentials"]

  const GeneralSegment: string := "General"

  /** Frames with more rows than this are segmented by k-means. */
  const SegmentationThreshold: nat := 5

  /** `Series.map(cluster_map)` on one label: a label the map lacks becomes `NaN`. */
  function SegmentCell(cluster: nat): Cell
  {
    if cluster < |SegmentNames| then Text(SegmentNames[cluster]) else Missing
  }

  /** `df['Cluster'] = labels`. */
  function ClusterCells(labels: seq<nat>): (cells: seq<Cell>)
    ensures |cells| == |labels|
  {
    seq(|labels|, i requires 0 <= i < |labels| => Num(labels[i] as real))
  }

  /** `df['Cluster'].map(cluster_map)`. */
  function SegmentCells(labels: seq<nat>): (cells: seq<Cell>)
    ensures |cells| == |labels|
  {
    seq(|labels|, i requires 0 <= i < |labels| => SegmentCell(labels[i]))
  }

  /** `"General"` on every row. */
  function GeneralCells(height: nat): (cells: seq<Cell>)
    ensures |cells| == height
  {
    seq(height, i requires 0 <= i < height => Text(GeneralSegment))
  }

  /**
   * The clustering block. `labelling` is what `fit_predict` returned for the rows, or
   * the exception raised anywhere in the block (import, scaling or fitting).
   */
  function Segmented(t: Table, labelling: Result<seq<nat>>): Table
    requires labelling.Ok? ==> |labelling.value| == t.height
  {
    if t.height > SegmentationThreshold && labelling.Ok? then
      SetColumn(SetColumn(t, "Cluster", ClusterCells(labelling.value)), "Market Segment", SegmentCells(labelling.value))
    else
      SetColumn(t, "Market Segment", GeneralCells(t.height))
  }

  /** The number in a cleaned cell. */
  function AsReal(c: Cell): real
  {
    if c.Num? then c.value else 0.0
  }

  /** Opportunity Score: `Volume * (100 - KD) / 100`. */
  function Opportunity(volume: real, difficulty: real): real
  {
    Times(volume, 100.0 - difficulty) / 100.0
  }

  /** Decay Risk: `clip(KD * 0.7 - AI Overview * 0.3, 0, 100)`. */
  function DecayRisk(difficulty: real, aiOverview: real): real
  {
    Clip(difficulty * 0.7 - aiOverview * 0.3, 0.0, 100.0)
  }

  /**
   * Entity Strength: `clip(Volume / (KD + 1) * 1.5, 0, 100)`. At KD = -1 the division
   * gives an infinity that the clip turns into 100 or 0, or `NaN` (0 / 0) that it keeps.
   */
  function EntityStrength(volume: real, difficulty: real): (c: Cell)
    ensures c.Missing? <==> difficulty == -1.0 && volume == 0.0
    ensures c.Num? ==> 0.0 <= c.value <= 100.0
    ensures difficulty > -1.0 && volume >= 0.0 ==> c.Num? && c.value >= 0.0
  {
    if difficulty + 1.0 == 0.0 then
      if volume > 0.0 then Num(100.0) else if volume < 0.0 then Num(0.0) else Missing
    else Num(Clip(volume / (difficulty + 1.0) * 1.5, 0.0, 100.0))
  }

  /** The names the derived scores are computed from. */
  predicate HasScoreInputs(t: Table)
  {
    "Volume" in Names(t) && "Keyword Difficulty" in Names(t) && "AI Overview" in Names(t)
  }

  function OpportunityCells(volume: seq<Cell>, difficulty: seq<Cell>): (cells: seq<Cell>)
    requires |volume| == |difficulty|
    ensures |cells| == |volume|
  {
    seq(|volume|, i requires 0 <= i < |volume| => Num(Opportunity(AsReal(volume[i]), AsReal(difficulty[i]))))
  }

  function DecayCells(difficulty: seq<Cell>, ai: seq<Cell>): (cells: seq<Cell>)
    requires |difficulty| == |ai|
    ensures |cells| == |difficulty|
    ensures forall j :: 0 <= j < |cells| ==> cells[j].Num? && 0.0 <= cells[j].value <= 100.0
  {
    seq(|difficulty|, i requires 0 <= i < |difficulty| => Num(DecayRisk(AsReal(difficulty[i]), AsReal(ai[i]))))
  }

  function EntityCells(volume: seq<Cell>, difficulty: seq<Cell>): (cells: seq<Cell>)
    requires |volume| == |difficulty|
    ensures |cells| == |volume|
    ensures forall j :: 0 <= j < |cells| ==> cells[j].Missing? || (cells[j].Num? && 0.0 <= cells[j].value <= 100.0)
  {
    seq(|volume|, i requires 0 <= i < |volume| => EntityStrength(AsReal(volume[i]), AsReal(difficulty[i])))
  }

  /** A column of a well-formed frame has one cell per row. */
  lemma ColumnCellsHeight(t: Table, name: string)
    requires WellFormed(t) && name in Names(t)
    ensures |ColumnCells(t, name)| == t.height
  {
  }

  /** The three derived score columns, written one after the other. */
  function Derived(t: Table): Table
    requires HasScoreInputs(t) && WellFormed(t)
  {
    ColumnCellsHeight(t, "Volume");
    ColumnCellsHeight(t, "Keyword Difficulty");
    ColumnCellsHeight(t, "AI Overview");
    var volume, difficulty, ai := ColumnCells(t, "Volume"), ColumnCells(t, "Keyword Difficulty"), ColumnCells(t, "AI Overview");
    var withOpportunity := SetColumn(t, "Opportunity Score", OpportunityCells(volume, difficulty));
    var withDecay := SetColumn(withOpportunity, "Decay Risk", DecayCells(difficulty, ai));
    SetColumn(withDecay, "Entity Strength", EntityCells(volume, difficulty))
  }

  /** Synthesis supplies the columns the scores read. */
  lemma SynthesisedHasScoreInputs(t: Table)
    ensures HasScoreInputs(Synthesised(t))
  {
    SynthesisedNames(t);
    var names := Names(Synthesised(t));
    assert Required[1].0 in names && Required[2].0 in names && Required[5].0 in names;
    assert Required[1].0 == "Volume" && Required[2].0 == "Keyword Difficulty" && Required[5].0 == "AI Overview";
  }

  /** Segmentation keeps the rows, the shape and the columns the scores read. */
  lemma SegmentedShape(t: Table, labelling: Result<seq<nat>>)
    requires labelling.Ok? ==> |labelling.value| == t.height
    ensures var r := Segmented(t, labelling);
      && r.height == t.height
      && (WellFormed(t) ==> WellFormed(r))
      && (forall n :: n in Names(t) ==> n in Names(r))
  {
    if t.height > SegmentationThreshold && labelling.Ok? {
      SetColumnShape(t, "Cluster", ClusterCells(labelling.value));
      SetColumnShape(SetColumn(t, "Cluster", ClusterCells(labelling.value)), "Market Segment", SegmentCells(labelling.value));
    } else {
      SetColumnShape(t, "Market Segment", GeneralCells(t.height));
    }
  }

  /** The frame between the cleaning loop and the derived scores has what they read. */
  lemma BeforeScores(df: Table, labelling: Result<seq<nat>>)
    requires WellFormed(df)
    requires labelling.Ok? ==> |labelling.value| == df.height
    requires Coerced(Synthesised(RenameColumns(df)), NumericTargets).Ok?
    ensures var t := Coerced(Synthesised(RenameColumns(df)), NumericTargets).value;
      t.height == df.height && HasScoreInputs(Segmented(t, labelling)) && WellFormed(Segmented(t, labelling))
  {
    var renamed := RenameColumns(df);
    SynthesisedShape(renamed);
    SynthesisedHasScoreInputs(renamed);
    var synthesised := Synthesised(renamed);
    CoerceAllShape(synthesised, NumericTargets);
    SegmentedShape(CoerceAll(synthesised, NumericTargets), labelling);
  }

  /**
   * What `process_seo_dataframe` returns, or the exception it raises. An empty input gives
   * an empty frame with the ten fixed columns (Perplexity is not among them).
   */
  function Process(df: Table, labelling: Result<seq<nat>>): (r: Result<Table>)
    requires WellFormed(df)
    requires labelling.Ok? ==> |labelling.value| == df.height
    ensures IsEmpty(df) ==> r.Ok? && r.value.height == 0 && Names(r.value) == EmptyColumns && WellFormed(r.value)
  {
    if IsEmpty(df) then Ok(EmptyFrame())
    else
      match Coerced(Synthesised(RenameColumns(df)), NumericTargets)
      case Err(e) => Err(e)
      case Ok(t) =>
        BeforeScores(df, labelling);
        Ok(Derived(Segmented(t, labelling)))
  }

  /** The clustering block, run on the working frame. */
  method AddSegment(t: Table, labelling: Result<seq<nat>>) returns (r: Table)
    requires labelling.Ok? ==> |labelling.value| == t.height
    ensures r == Segmented(t, labelling)
  {
    if t.height > SegmentationThreshold && labelling.Ok? {
      r := SetColumn(t, "Cluster", ClusterCells(labelling.value));
      r := SetColumn(r, "Market Segment", SegmentCells(labelling.value));
    } else {
      r := SetColumn(t, "Market Segment", GeneralCells(t.height));
    }
  }

  /** The three score assignments, run on the working frame. */
  method AddScores(t: Table) returns (r: Table)
    requires HasScoreInputs(t) && WellFormed(t)
    ensures r == Derived(t)
  {
    ColumnCellsHeight(t, "Volume");
    ColumnCellsHeight(t, "Keyword Difficulty");
    ColumnCellsHeight(t, "AI Overview");
    var volume, difficulty, ai := ColumnCells(t, "Volume"), ColumnCells(t, "Keyword Difficulty"), ColumnCells(t, "AI Overview");
    r := SetColumn(t, "Opportunity Score", OpportunityCells(volume, difficulty));
    r := SetColumn(r, "Decay Risk", DecayCells(difficulty, ai));
    r := SetColumn(r, "Entity Strength", EntityCells(volume, difficulty));
  }

  /**
   * `process_seo_dataframe(df)`: rename, synthesise, clean, segment and score, step by
   * step on a working frame.
   */
  method ProcessSeoDataframe(df: Table, labelling: Result<seq<nat>>) returns (r: Result<Table>)
    requires WellFormed(df)
    requires labelling.Ok? ==> |labelling.value| == df.height
    ensures r == Process(df, labelling)
  {
    if IsEmpty(df) {
      return Ok(EmptyFrame());
    }
    var finalMap := BuildFinalMap(NormMap, Names(df));
    var t := RenameWith(df, finalMap);
    RenameWithFinalMap(df, finalMap);
    t := SynthesiseRequired(t);
    r := CoerceNumeric(t, NumericTargets);
    if r.Err? {
      return;
    }
    BeforeScores(df, labelling);
    t := AddSegment(r.value, labelling);
    t := AddScores(t);
    return Ok(t);
  }

  // ---------------------------------------------------------------------------------
  // What the whole pipeline promises

  /**
   * `r` is `t` with only columns named in `written` overwritten or appended: every column
   * of `t` keeps its place and name, and any column of `r` with another name is the
   * column of `t` at that place.
   */
  predicate WritesOnly(t: Table, r: Table, written: seq<string>)
  {
    && |t.columns| <= |r.columns|
    && (forall i :: 0 <= i < |t.columns| ==> r.columns[i].name == t.columns[i].name)
    && (forall i :: 0 <= i < |r.columns| && r.columns[i].name !in written ==> i < |t.columns| && r.columns[i] == t.columns[i])
  }

  lemma SetColumnWritesOnly(t: Table, name: string, cells: seq<Cell>)
    ensures WritesOnly(t, SetColumn(t, name, cells), [name])
  {
    SetColumnShape(t, name, cells);
  }

  lemma WritesOnlyChain(a: Table, b: Table, c: Table, w1: seq<string>, w2: seq<string>)
    requires WritesOnly(a, b, w1) && WritesOnly(b, c, w2)
    ensures WritesOnly(a, c, w1 + w2)
  {
  }

  /** The segmentation writes "Cluster" and "Market Segment" and nothing else. */
  lemma SegmentedWritesOnly(t: Table, labelling: Result<seq<nat>>)
    requires labelling.Ok? ==> |labelling.value| == t.height
    ensures WritesOnly(t, Segmented(t, labelling), ["Cluster", "Market Segment"])
  {
    if t.height > SegmentationThreshold && labelling.Ok? {
      var clustered := SetColumn(t, "Cluster", ClusterCells(labelling.value));
      SetColumnWritesOnly(t, "Cluster", ClusterCells(labelling.value));
      SetColumnWritesOnly(clustered, "Market Segment", SegmentCells(labelling.value));
      WritesOnlyChain(t, clustered, Segmented(t, labelling), ["Cluster"], ["Market Segment"]);
    } else {
      SetColumnWritesOnly(t, "Market Segment", GeneralCells(t.height));
    }
  }

  /** The names of the three derived scores. */
  const ScoreNames: seq<string> := ["Opportunity Score", "Decay Risk", "Entity Strength"]

  /** Every column of a frame named `name` holds `cells`. */
  predicate ColumnsHold(t: Table, name: string, cells: seq<Cell>)
  {
    forall i :: 0 <= i < |t.columns| && t.columns[i].name == name ==> t.columns[i].cells == cells
  }

  /** The first column named `name` is the same column in two frames that agree up to it. */
  lemma SameFirstColumn(t: Table, r: Table, name: string)
    requires name in Names(t) && |t.columns| <= |r.columns|
    requires forall i :: 0 <= i < |t.columns| ==> r.columns[i].name == t.columns[i].name
    requires r.columns[IndexOf(t, name)] == t.columns[IndexOf(t, name)]
    ensures name in Names(r) && ColumnCells(r, name) == ColumnCells(t, name)
  {
    var k := IndexOf(t, name);
    assert Names(r)[k] == name;
  }

  lemma SetColumnHolds(t: Table, name: string, cells: seq<Cell>)
    ensures ColumnsHold(SetColumn(t, name, cells), name, cells) && name in Names(SetColumn(t, name, cells))
  {
    SetColumnShape(t, name, cells);
  }

  /** A frame written only under other names keeps the columns named `name` and their cells. */
  lemma WritesOnlyKeeps(a: Table, b: Table, written: seq<string>, name: string, cells: seq<Cell>)
    requires WritesOnly(a, b, written) && name !in written
    ensures ColumnsHold(a, name, cells) ==> ColumnsHold(b, name, cells)
    ensures name in Names(a) ==> name in Names(b)
  {
    if name in Names(a) {
      var k :| 0 <= k < |a.columns| && Names(a)[k] == name;
      assert Names(b)[k] == name;
    }
  }

  /** The score assignments write the three score columns and nothing else. */
  lemma DerivedWritesOnly(t: Table)
    requires HasScoreInputs(t) && WellFormed(t)
    ensures WritesOnly(t, Derived(t), ScoreNames)
  {
    ColumnCellsHeight(t, "Volume");
    ColumnCellsHeight(t, "Keyword Difficulty");
    ColumnCellsHeight(t, "AI Overview");
    var volume, difficulty, ai := ColumnCells(t, "Volume"), ColumnCells(t, "Keyword Difficulty"), ColumnCells(t, "AI Overview");
    var t1 := SetColumn(t, "Opportunity Score", OpportunityCells(volume, difficulty));
    var t2 := SetColumn(t1, "Decay Risk", DecayCells(difficulty, ai));
    SetColumnWritesOnly(t, "Opportunity Score", OpportunityCells(volume, difficulty));
    SetColumnWritesOnly(t1, "Decay Risk", DecayCells(difficulty, ai));
    var t3 := SetColumn(t2, "Entity Strength", EntityCells(volume, difficulty));
    assert t3 == Derived(t);
    SetColumnWritesOnly(t2, "Entity Strength", EntityCells(volume, difficulty));
    WritesOnlyChain(t, t1, t2, ["Opportunity Score"], ["Decay Risk"]);
    WritesOnlyChain(t, t2, t3, ["Opportunity Score", "Decay Risk"], ["Entity Strength"]);
    assert ["Opportunity Score", "Decay Risk"] + ["Entity Strength"] == ScoreNames;
  }

  /**
   * Each score column holds its formula applied row by row to the Volume, Keyword
   * Difficulty and AI Overview columns.
   */
  lemma DerivedScoreCells(t: Table)
    requires HasScoreInputs(t) && WellFormed(t)
    ensures var r := Derived(t);
      var volume, difficulty, ai := ColumnCells(t, "Volume"), ColumnCells(t, "Keyword Difficulty"), ColumnCells(t, "AI Overview");
      && |volume| == |difficulty| == |ai| == t.height
      && ColumnsHold(r, "Opportunity Score", OpportunityCells(volume, difficulty))
      && ColumnsHold(r, "Decay Risk", DecayCells(difficulty, ai))
      && ColumnsHold(r, "Entity Strength", EntityCells(volume, difficulty))
      && (forall n :: n in ScoreNames ==> n in Names(r))
  {
    ColumnCellsHeight(t, "Volume");
    ColumnCellsHeight(t, "Keyword Difficulty");
    ColumnCellsHeight(t, "AI Overview");
    var volume, difficulty, ai := ColumnCells(t, "Volume"), ColumnCells(t, "Keyword Difficulty"), ColumnCells(t, "AI Overview");
    var opportunity, decay, entity := OpportunityCells(volume, difficulty), DecayCells(difficulty, ai), EntityCells(volume, difficulty);
    var t1 := SetColumn(t, "Opportunity Score", opportunity);
    var t2 := SetColumn(t1, "Decay Risk", decay);
    var t3 := SetColumn(t2, "Entity Strength", entity);
    assert t3 == Derived(t);
    SetColumnHolds(t, "Opportunity Score", opportunity);
    SetColumnHolds(t1, "Decay Risk", decay);
    SetColumnHolds(t2, "Entity Strength", entity);
    SetColumnWritesOnly(t1, "Decay Risk", decay);
    SetColumnWritesOnly(t2, "Entity Strength", entity);
    WritesOnlyKeeps(t1, t2, ["Decay Risk"], "Opportunity Score", opportunity);
    WritesOnlyKeeps(t2, t3, ["Entity Strength"], "Opportunity Score", opportunity);
    WritesOnlyKeeps(t2, t3, ["Entity Strength"], "Decay Risk", decay);
  }

  /** The columns synthesis adds have pairwise different names. */
  lemma {:induction false} MissingColumnsDistinct(t: Table, n: nat)
    requires n <= |Required|
    ensures DistinctNames(MissingColumns(t, n))
  {
    if n > 0 {
      MissingColumnsDistinct(t, n - 1);
      RequiredNamesDistinct();
      var front, added := MissingColumns(t, n - 1), MissingColumns(t, n);
      assert added[..|front|] == front;
      forall i, j | 0 <= i < j < |added|
        ensures added[i].name != added[j].name
      {
        if j >= |front| {
          assert added[i] == front[i] && added[j].name == Required[n - 1].0;
          assert front[i] in front;
          var k :| 0 <= k < n - 1 && front[i] == Column(Required[k].0, DefaultCells(Required[k].1, t.height));
          assert Required[k].0 != Required[n - 1].0;
        } else {
          assert added[i] == front[i] && added[j] == front[j];
        }
      }
    }
  }

  /** Synthesis never duplicates a name: a name is held twice afterwards iff it was before. */
  lemma SynthesisedDuplicated(t: Table, name: string)
    ensures Duplicated(Synthesised(t), name) <==> Duplicated(t, name)
  {
    var r := Synthesised(t);
    var added := MissingColumns(t, |Required|);
    assert r.columns == t.columns + added;
    MissingColumnsDistinct(t, |Required|);
    if Duplicated(r, name) {
      var i, j :| 0 <= i < j < |r.columns| && r.columns[i].name == name && r.columns[j].name == name;
      if j >= |t.columns| {
        assert false;
      } else {
        assert r.columns[i] == t.columns[i] && r.columns[j] == t.columns[j];
      }
    }
    if Duplicated(t, name) {
      var i, j :| 0 <= i < j < |t.columns| && t.columns[i].name == name && t.columns[j].name == name;
      assert r.columns[i] == t.columns[i] && r.columns[j] == t.columns[j];
    }
  }

  /**
   * `process_seo_dataframe` raises exactly when the input is non-empty and, after
   * renaming, two columns carry the same numeric target name; then it is `pd.to_numeric`'s
   * `TypeError`.
   */
  lemma ProcessFails(df: Table, labelling: Result<seq<nat>>)
    requires WellFormed(df)
    requires labelling.Ok? ==> |labelling.value| == df.height
    ensures Process(df, labelling).Err? <==>
      !IsEmpty(df) && exists k :: 0 <= k < |NumericTargets| && Duplicated(RenameColumns(df), NumericTargets[k])
    ensures Process(df, labelling).Err? ==> Process(df, labelling).error == ToNumericError
  {
    var renamed := RenameColumns(df);
    forall k | 0 <= k < |NumericTargets|
      ensures Duplicated(Synthesised(renamed), NumericTargets[k]) <==> Duplicated(renamed, NumericTargets[k])
    {
      SynthesisedDuplicated(renamed, NumericTargets[k]);
    }
  }

  /** Every cell holds a number. */
  predicate AllNum(cells: seq<Cell>)
  {
    forall j :: 0 <= j < |cells| ==> cells[j].Num?
  }

  /** The names the segmentation and the scores may write. */
  const WrittenNames: seq<string> := ["Cluster", "Market Segment"] + ScoreNames

  /**
   * The frame after renaming, synthesis and cleaning: the input's columns first, under
   * their canonical names, cleaned when they are numeric targets; then the required
   * columns it lacked; every numeric target column holds only numbers.
   */
  lemma CleanedShape(df: Table)
    requires WellFormed(df)
    ensures var c := CoerceAll(Synthesised(RenameColumns(df)), NumericTargets);
      && c.height == df.height && WellFormed(c) && |df.columns| <= |c.columns|
      && (forall i :: 0 <= i < |df.columns| ==>
            c.columns[i] == CoerceIfTarget(Column(CanonicalName(df.columns[i].name), df.columns[i].cells), NumericTargets))
      && (forall j :: 0 <= j < |Required| ==> Required[j].0 in Names(c))
      && (forall i :: 0 <= i < |c.columns| && c.columns[i].name in NumericTargets ==> AllNum(c.columns[i].cells))
  {
    var renamed := RenameColumns(df);
    var synthesised := Synthesised(renamed);
    SynthesisedShape(renamed);
    CoerceAllShape(synthesised, NumericTargets);
    var c := CoerceAll(synthesised, NumericTargets);
    forall i | 0 <= i < |df.columns|
      ensures c.columns[i] == CoerceIfTarget(Column(CanonicalName(df.columns[i].name), df.columns[i].cells), NumericTargets)
    {
      assert synthesised.columns[i] == renamed.columns[i];
    }
    forall j | 0 <= j < |Required|
      ensures Required[j].0 in Names(c)
    {
      assert Required[j].0 in Names(synthesised);
    }
  }

  /**
   * On a non-empty input it does not reject, `process_seo_dataframe` keeps the row count
   * and one cell per row; the input's columns stay first, in order, under their canonical
   * names, cleaned if they are numeric targets and otherwise untouched unless their name is
   * one the segmentation or the scores write; all eleven required columns, the market
   * segment and the three scores exist; and every numeric target column holds numbers only.
   */
  lemma ProcessKeepsColumns(df: Table, labelling: Result<seq<nat>>)
    requires WellFormed(df)
    requires labelling.Ok? ==> |labelling.value| == df.height
    requires !IsEmpty(df) && Process(df, labelling).Ok?
    ensures var r := Process(df, labelling).value;
      && r.height == df.height && WellFormed(r) && |df.columns| <= |r.columns|
      && (forall i :: 0 <= i < |df.columns| ==> r.columns[i].name == CanonicalName(df.columns[i].name))
      && (forall i :: 0 <= i < |df.columns| && CanonicalName(df.columns[i].name) in NumericTargets ==>
            r.columns[i].cells == CoerceCells(df.columns[i].cells))
      && (forall i :: 0 <= i < |df.columns| && CanonicalName(df.columns[i].name) !in NumericTargets + WrittenNames ==>
            r.columns[i].cells == df.columns[i].cells)
      && (forall j :: 0 <= j < |Required| ==> Required[j].0 in Names(r))
      && (forall i :: 0 <= i < |r.columns| && r.columns[i].name in NumericTargets ==> AllNum(r.columns[i].cells))
  {
    CleanedShape(df);
    var c := CoerceAll(Synthesised(RenameColumns(df)), NumericTargets);
    ProcessValue(df, labelling);
    SegmentedShape(c, labelling);
    SegmentedWritesOnly(c, labelling);
    ScoresAfterSegment(c, Segmented(c, labelling));
    WrittenColumnsKept(df, c, Derived(Segmented(c, labelling)));
  }

  /** On a non-empty input it does not reject, the result is the segmented, scored cleaned frame. */
  lemma ProcessValue(df: Table, labelling: Result<seq<nat>>)
    requires WellFormed(df)
    requires labelling.Ok? ==> |labelling.value| == df.height
    requires !IsEmpty(df) && Process(df, labelling).Ok?
    ensures var c := CoerceAll(Synthesised(RenameColumns(df)), NumericTargets);
      && c.height == df.height
      && HasScoreInputs(Segmented(c, labelling)) && WellFormed(Segmented(c, labelling))
      && Process(df, labelling).value == Derived(Segmented(c, labelling))
  {
    BeforeScores(df, labelling);
  }

  /** The scores keep the segmented frame's shape and write only their own columns. */
  lemma ScoresAfterSegment(c: Table, t: Table)
    requires HasScoreInputs(t) && WellFormed(t)
    requires WritesOnly(c, t, ["Cluster", "Market Segment"])
    ensures WritesOnly(c, Derived(t), WrittenNames) && WellFormed(Derived(t)) && Derived(t).height == t.height
  {
    DerivedWritesOnly(t);
    DerivedWellFormed(t);
    WritesOnlyChain(c, t, Derived(t), ["Cluster", "Market Segment"], ScoreNames);
  }

  /** What a frame written only under `WrittenNames` keeps of the cleaned frame. */
  lemma WrittenColumnsKept(df: Table, c: Table, r: Table)
    requires |df.columns| <= |c.columns| && WritesOnly(c, r, WrittenNames)
    requires forall i :: 0 <= i < |df.columns| ==>
      c.columns[i] == CoerceIfTarget(Column(CanonicalName(df.columns[i].name), df.columns[i].cells), NumericTargets)
    requires forall j :: 0 <= j < |Required| ==> Required[j].0 in Names(c)
    requires forall i :: 0 <= i < |c.columns| && c.columns[i].name in NumericTargets ==> AllNum(c.columns[i].cells)
    ensures |df.columns| <= |r.columns|
    ensures forall i :: 0 <= i < |df.columns| ==> r.columns[i].name == CanonicalName(df.columns[i].name)
    ensures forall i :: 0 <= i < |df.columns| && CanonicalName(df.columns[i].name) in NumericTargets ==>
      r.columns[i].cells == CoerceCells(df.columns[i].cells)
    ensures forall i :: 0 <= i < |df.columns| && CanonicalName(df.columns[i].name) !in NumericTargets + WrittenNames ==>
      r.columns[i].cells == df.columns[i].cells
    ensures forall j :: 0 <= j < |Required| ==> Required[j].0 in Names(r)
    ensures forall i :: 0 <= i < |r.columns| && r.columns[i].name in NumericTargets ==> AllNum(r.columns[i].cells)
  {
    forall j | 0 <= j < |Required|
      ensures Required[j].0 in Names(r)
    {
      var k :| 0 <= k < |c.columns| && Names(c)[k] == Required[j].0;
      assert Names(r)[k] == Required[j].0;
    }
    forall i | 0 <= i < |r.columns| && r.columns[i].name in NumericTargets
      ensures AllNum(r.columns[i].cells)
    {
      assert r.columns[i].name !in WrittenNames;
    }
  }

  /** The score assignments keep one cell per row. */
  lemma DerivedWellFormed(t: Table)
    requires HasScoreInputs(t) && WellFormed(t)
    ensures WellFormed(Derived(t)) && Derived(t).height == t.height
  {
    ColumnCellsHeight(t, "Volume");
    ColumnCellsHeight(t, "Keyword Difficulty");
    ColumnCellsHeight(t, "AI Overview");
    var volume, difficulty, ai := ColumnCells(t, "Volume"), ColumnCells(t, "Keyword Difficulty"), ColumnCells(t, "AI Overview");
    var t1 := SetColumn(t, "Opportunity Score", OpportunityCells(volume, difficulty));
    var t2 := SetColumn(t1, "Decay Risk", DecayCells(difficulty, ai));
    SetColumnShape(t, "Opportunity Score", OpportunityCells(volume, difficulty));
    SetColumnShape(t1, "Decay Risk", DecayCells(difficulty, ai));
    SetColumnShape(t2, "Entity Strength", EntityCells(volume, difficulty));
  }

  /** The segmentation's columns hold the k-means segments, or "General" on every row. */
  lemma SegmentedColumns(t: Table, labelling: Result<seq<nat>>)
    requires labelling.Ok? ==> |labelling.value| == t.height
    ensures var r := Segmented(t, labelling);
      && "Market Segment" in Names(r)
      && (t.height <= SegmentationThreshold || labelling.Err? ==> ColumnsHold(r, "Market Segment", GeneralCells(t.height)))
      && (t.height > SegmentationThreshold && labelling.Ok? ==>
            ColumnsHold(r, "Market Segment", SegmentCells(labelling.value))
            && ColumnsHold(r, "Cluster", ClusterCells(labelling.value)))
  {
    if t.height > SegmentationThreshold && labelling.Ok? {
      var clustered := SetColumn(t, "Cluster", ClusterCells(labelling.value));
      SetColumnHolds(t, "Cluster", ClusterCells(labelling.value));
      SetColumnHolds(clustered, "Market Segment", SegmentCells(labelling.value));
      SetColumnWritesOnly(clustered, "Market Segment", SegmentCells(labelling.value));
      WritesOnlyKeeps(clustered, Segmented(t, labelling), ["Market Segment"], "Cluster", ClusterCells(labelling.value));
    } else {
      SetColumnHolds(t, "Market Segment", GeneralCells(t.height));
    }
  }

  /**
   * The market segment of the result: "General" on every row when the frame has at most
   * five rows or the clustering block raised; otherwise each row's k-means label in
   * "Cluster" and the segment it names in "Market Segment".
   */
  lemma ProcessSegments(df: Table, labelling: Result<seq<nat>>)
    requires WellFormed(df)
    requires labelling.Ok? ==> |labelling.value| == df.height
    requires !IsEmpty(df) && Process(df, labelling).Ok?
    ensures var r := Process(df, labelling).value;
      && "Market Segment" in Names(r)
      && (df.height <= SegmentationThreshold || labelling.Err? ==> ColumnsHold(r, "Market Segment", GeneralCells(df.height)))
      && (df.height > SegmentationThreshold && labelling.Ok? ==>
            ColumnsHold(r, "Market Segment", SegmentCells(labelling.value))
            && ColumnsHold(r, "Cluster", ClusterCells(labelling.value)))
  {
    var c := CoerceAll(Synthesised(RenameColumns(df)), NumericTargets);
    ProcessValue(df, labelling);
    SegmentedColumns(c, labelling);
    SegmentsSurviveScores(Segmented(c, labelling), labelling);
  }

  /** The score assignments leave the segmentation's columns as they were. */
  lemma SegmentsSurviveScores(t: Table, labelling: Result<seq<nat>>)
    requires HasScoreInputs(t) && WellFormed(t)
    ensures "Market Segment" in Names(t) ==> "Market Segment" in Names(Derived(t))
    ensures ColumnsHold(t, "Market Segment", GeneralCells(t.height)) ==>
      ColumnsHold(Derived(t), "Market Segment", GeneralCells(t.height))
    ensures labelling.Ok? && ColumnsHold(t, "Market Segment", SegmentCells(labelling.value)) ==>
      ColumnsHold(Derived(t), "Market Segment", SegmentCells(labelling.value))
    ensures labelling.Ok? && ColumnsHold(t, "Cluster", ClusterCells(labelling.value)) ==>
      ColumnsHold(Derived(t), "Cluster", ClusterCells(labelling.value))
  {
    DerivedWritesOnly(t);
    var r := Derived(t);
    assert "Market Segment" !in ScoreNames && "Cluster" !in ScoreNames by {
      SegmentNamesAreNotScores();
    }
    WritesOnlyKeeps(t, r, ScoreNames, "Market Segment", GeneralCells(t.height));
    if labelling.Ok? {
      WritesOnlyKeeps(t, r, ScoreNames, "Market Segment", SegmentCells(labelling.value));
      WritesOnlyKeeps(t, r, ScoreNames, "Cluster", ClusterCells(labelling.value));
    }
  }

  /**
   * The scores of the result, row by row from its own Volume, Keyword Difficulty and AI
   * Overview columns (which hold numbers only): Opportunity Score, Decay Risk and Entity
   * Strength by their formulas.
   */
  lemma ProcessScores(df: Table, labelling: Result<seq<nat>>)
    requires WellFormed(df)
    requires labelling.Ok? ==> |labelling.value| == df.height
    requires !IsEmpty(df) && Process(df, labelling).Ok?
    ensures var r := Process(df, labelling).value;
      && HasScoreInputs(r)
      && var volume, difficulty, ai := ColumnCells(r, "Volume"), ColumnCells(r, "Keyword Difficulty"), ColumnCells(r, "AI Overview");
      && |volume| == |difficulty| == |ai| == df.height
      && AllNum(volume) && AllNum(difficulty) && AllNum(ai)
      && ColumnsHold(r, "Opportunity Score", OpportunityCells(volume, difficulty))
      && ColumnsHold(r, "Decay Risk", DecayCells(difficulty, ai))
      && ColumnsHold(r, "Entity Strength", EntityCells(volume, difficulty))
  {
    var c := CoerceAll(Synthesised(RenameColumns(df)), NumericTargets);
    ProcessValue(df, labelling);
    ProcessKeepsColumns(df, labelling);
    ScoresFromOwnColumns(Segmented(c, labelling));
    ScoreInputsAreNumbers(Process(df, labelling).value);
  }

  /** After the score assignments, each score is its formula over the frame's own input columns. */
  lemma ScoresFromOwnColumns(t: Table)
    requires HasScoreInputs(t) && WellFormed(t)
    ensures var r := Derived(t);
      && HasScoreInputs(r)
      && var volume, difficulty, ai := ColumnCells(r, "Volume"), ColumnCells(r, "Keyword Difficulty"), ColumnCells(r, "AI Overview");
      && |volume| == |difficulty| == |ai| == t.height
      && ColumnsHold(r, "Opportunity Score", OpportunityCells(volume, difficulty))
      && ColumnsHold(r, "Decay Risk", DecayCells(difficulty, ai))
      && ColumnsHold(r, "Entity Strength", EntityCells(volume, difficulty))
  {
    var r := Derived(t);
    DerivedWritesOnly(t);
    DerivedScoreCells(t);
    InputsAreNotScores();
    ScoreInputsKept(t, r, "Volume");
    ScoreInputsKept(t, r, "Keyword Difficulty");
    ScoreInputsKept(t, r, "AI Overview");
  }

  /** A frame whose numeric target columns hold numbers reads numbers for the scores. */
  lemma ScoreInputsAreNumbers(r: Table)
    requires HasScoreInputs(r)
    requires forall i :: 0 <= i < |r.columns| && r.columns[i].name in NumericTargets ==> AllNum(r.columns[i].cells)
    ensures AllNum(ColumnCells(r, "Volume")) && AllNum(ColumnCells(r, "Keyword Difficulty")) && AllNum(ColumnCells(r, "AI Overview"))
  {
    assert "Volume" in NumericTargets && "Keyword Difficulty" in NumericTargets && "AI Overview" in NumericTargets;
  }

  lemma SegmentNamesAreNotScores()
    ensures "Market Segment" !in ScoreNames && "Cluster" !in ScoreNames
  {
  }

  lemma InputsAreNotScores()
    ensures "Volume" !in ScoreNames && "Keyword Difficulty" !in ScoreNames && "AI Overview" !in ScoreNames
  {
  }

  /** A column the scores read is the same column after they are written. */
  lemma ScoreInputsKept(t: Table, r: Table, name: string)
    requires name in Names(t) && name !in ScoreNames && WritesOnly(t, r, ScoreNames)
    ensures name in Names(r) && ColumnCells(r, name) == ColumnCells(t, name)
    ensures AllNum(t.columns[IndexOf(t, name)].cells) ==> AllNum(ColumnCells(r, name))
  {
    SameFirstColumn(t, r, name);
  }

  /**
   * For a difficulty in 0..100 and a non-negative volume, the Opportunity Score lies
   * between 0 and the volume, and a harder keyword never scores higher.
   */
  lemma OpportunityBounds(volume: real, difficulty: real, harder: real)
    requires 0.0 <= difficulty <= harder <= 100.0 && volume >= 0.0
    ensures 0.0 <= Opportunity(volume, harder) <= Opportunity(volume, difficulty) <= volume
  {
    assert Times(volume, 100.0 - difficulty) <= Times(volume, 100.0) by {
      assert volume * (100.0 - difficulty) == volume * 100.0 - volume * difficulty;
      assert volume * difficulty >= 0.0;
    }
    assert Times(volume, 100.0 - harder) <= Times(volume, 100.0 - difficulty) by {
      assert volume * (100.0 - difficulty) - volume * (100.0 - harder) == volume * (harder - difficulty);
      assert volume * (harder - difficulty) >= 0.0;
    }
    assert Times(volume, 100.0 - harder) >= 0.0;
  }

  /** `pd.to_numeric` reads back `str(n)` and `"-" + str(n)` as the number. */
  lemma ParseNumberOfNatToString(n: nat)
    ensures ParseNumber(NatToString(n)) == Some(n as real)
    ensures ParseNumber("-" + NatToString(n)) == Some(-(n as real))
  {
    var digits := NatToString(n);
    UnsignedOfNatToString(n);
    assert ("-" + digits)[1..] == digits;
  }

  lemma UnsignedOfNatToString(n: nat)
    ensures |NatToString(n)| > 0 && NatToString(n)[0] != '-' && NatToString(n)[0] != '+'
    ensures ParseUnsigned(NatToString(n)) == Some(n as real)
  {
    var digits := NatToString(n);
    DigitsValueOfNatToString(n);
    assert DotIndex(digits) == |digits|;
    assert digits[..|digits|] == digits;
  }

  /**
   * A text cell with a character that is neither a digit, a point nor a sign is not a
   * number: cleaning turns it into 0.
   */
  lemma NonNumericTextBecomesZero(s: string, i: nat)
    requires i < |s| && !IsDigit(s[i]) && s[i] !in ".-+"
    ensures ToNumber(Text(s)) == 0.0
  {
    var u := if s[0] == '-' || s[0] == '+' then s[1..] else s;
    var k := if s[0] == '-' || s[0] == '+' then i - 1 else i;
    assert 0 <= k < |u| && u[k] == s[i];
    UnsignedRejects(u, k);
  }

  lemma UnsignedRejects(u: string, k: nat)
    requires k < |u| && !IsDigit(u[k]) && u[k] != '.'
    ensures ParseUnsigned(u) == None
  {
    var d := DotIndex(u);
    if k < d {
      assert u[..d][k] == u[k];
    } else {
      assert k > d;
      assert u[d + 1..][k - d - 1] == u[k];
    }
  }
}
