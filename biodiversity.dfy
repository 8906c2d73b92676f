/**
 * The biodiversity analysis of the joined table (`categorize_shannon`,
 * `categorize_simpson`, `generate_asset_report`): per asset, the exact
 * location's indices and ecosystems, the neighbourhood's averages and
 * coverage, and the asset's rank by mean Shannon index among all assets.
 */
module Biodiversity {
  import opened Wrappers
  import opened Strings
  import opened Values
  import opened NeighborhoodQuery
  import opened Ranking

  /** The ecosystem columns in the order the exact section lists them. */
  const ExactOrder: seq<string> := ["mangrove", "seamount", "cold_water_coral", "seagrass", "coral"]

  /** The same columns in the order the coverage section lists them. */
  const CoverageOrder: seq<string> := ["coral", "seagrass", "cold_water_coral", "mangrove", "seamount"]

  const EcosystemColumns: set<string> := {"mangrove", "seamount", "cold_water_coral", "seagrass", "coral"}

  const NumericColumns: set<string> := EcosystemColumns + {"shannon", "simpson"}

  /** The rule under the rank line: 35 dashes. */
  const Rule: string := "-----------------------------------"

  const LowBiodiversity: string := "Low Biodiversity"
  const MediumBiodiversity: string := "Medium Biodiversity"
  const HighBiodiversity: string := "High Biodiversity"
  const HighDominance: string := "High Dominance, Low Evenness"
  const ModerateDominance: string := "Moderate Dominance"
  const LowDominance: string := "Low Dominance, High Evenness"
  const NotAvailable: string := "N/A"

  // ---------------------------------------------------------------------
  // Categories

  /** Shannon index bands: below 2 low, 2 to 4 inclusive medium, above 4 high. */
  function CategorizeShannon(shannon: Option<real>): (c: string)
    ensures shannon.None? <==> c == NotAvailable
    ensures shannon.Some? ==> (c == LowBiodiversity <==> shannon.value < 2.0)
    ensures shannon.Some? ==> (c == MediumBiodiversity <==> 2.0 <= shannon.value <= 4.0)
    ensures shannon.Some? ==> (c == HighBiodiversity <==> 4.0 < shannon.value)
  {
    match shannon
    case None => NotAvailable
    case Some(v) =>
      if v < 2.0 then LowBiodiversity
      else if 2.0 <= v <= 4.0 then MediumBiodiversity
      else HighBiodiversity
  }

  /** Simpson index bands: above 0.5 high dominance, 0.2 to 0.5 inclusive moderate, below 0.2 low dominance. */
  function CategorizeSimpson(simpson: Option<real>): (c: string)
    ensures simpson.None? <==> c == NotAvailable
    ensures simpson.Some? ==> (c == HighDominance <==> 0.5 < simpson.value)
    ensures simpson.Some? ==> (c == ModerateDominance <==> 0.2 <= simpson.value <= 0.5)
    ensures simpson.Some? ==> (c == LowDominance <==> simpson.value < 0.2)
  {
    match simpson
    case None => NotAvailable
    case Some(v) =>
      if v > 0.5 then HighDominance
      else if 0.2 <= v <= 0.5 then ModerateDominance
      else LowDominance
  }

  /** `safe_format`: three decimals, or "N/A" for an absent value. */
  function SafeFormat(v: Option<real>, fmt: Formats): string
  {
    match v
    case None => NotAvailable
    case Some(x) => fmt.fixed3(x)
  }

  // ---------------------------------------------------------------------
  // The joined table as the analysis reads it

  /** Every row carries a number in each numeric column the table has: no NaN anywhere. */
  predicate Filled(columns: set<string>, rows: seq<Row>)
  {
    forall r, c :: r in rows && c in columns && c in NumericColumns ==> c in r.values
  }

  /** A table the analysis can run on: it has both index columns and no missing numbers. */
  predicate Analyzable(f: Frame)
  {
    "shannon" in f.columns && "simpson" in f.columns && Filled(f.columns, f.rows)
  }

  /** `rows[mask]`: the rows satisfying `p`, in table order. */
  function Where(rows: seq<Row>, p: Row -> bool): (r: seq<Row>)
    ensures forall x :: x in r <==> x in rows && p(x)
    ensures |r| <= |rows|
  {
    if rows == [] then []
    else (if p(rows[0]) then [rows[0]] else []) + Where(rows[1..], p)
  }

  /** Filtering keeps the table's order and its repeated rows: it distributes over concatenation. */
  lemma {:induction false} WhereAppend(rows: seq<Row>, more: seq<Row>, p: Row -> bool)
    ensures Where(rows + more, p) == Where(rows, p) + Where(more, p)
  {
    if rows == [] {
      assert rows + more == more;
    } else {
      var all := rows + more;
      var head := if p(rows[0]) then [rows[0]] else [];
      assert all[0] == rows[0] && all[1..] == rows[1..] + more;
      WhereAppend(rows[1..], more, p);
      calc {
        Where(all, p);
        head + Where(rows[1..] + more, p);
        head + (Where(rows[1..], p) + Where(more, p));
        (head + Where(rows[1..], p)) + Where(more, p);
      }
    }
  }

  /** One more row at the end of the table is kept, at the end, exactly when it satisfies `p`. */
  lemma WhereSnoc(rows: seq<Row>, x: Row, p: Row -> bool)
    ensures Where(rows + [x], p) == Where(rows, p) + (if p(x) then [x] else [])
  {
    WhereAppend(rows, [x], p);
    assert Where([x], p) == (if p(x) then [x] else []) + Where([x][1..], p);
  }

  /** The position of the first row satisfying `p`: what `.values[0]` reads after filtering. */
  function FirstWhere(rows: seq<Row>, p: Row -> bool): (k: Option<nat>)
    ensures k.Some? ==> k.value < |rows| && p(rows[k.value])
    ensures k.Some? ==> forall j :: 0 <= j < k.value ==> !p(rows[j])
    ensures k.None? <==> forall j :: 0 <= j < |rows| ==> !p(rows[j])
  {
    if rows == [] then None
    else if p(rows[0]) then Some(0)
    else
      match FirstWhere(rows[1..], p)
      case None => None
      case Some(j) => Some(j + 1)
  }

  /**
   * The first row satisfying `p` among the rows kept by `q` is the first row
   * of the whole table satisfying both, returned as `k`.
   */
  lemma {:induction false} FirstOfWhere(rows: seq<Row>, q: Row -> bool, p: Row -> bool) returns (k: nat)
    ensures FirstWhere(Where(rows, q), p).None? <==> forall j :: 0 <= j < |rows| ==> !(q(rows[j]) && p(rows[j]))
    ensures FirstWhere(Where(rows, q), p).Some? ==>
      && k < |rows| && q(rows[k]) && p(rows[k])
      && (forall j :: 0 <= j < k ==> !(q(rows[j]) && p(rows[j])))
      && Where(rows, q)[FirstWhere(Where(rows, q), p).value] == rows[k]
  {
    k := 0;
    if rows != [] {
      var w := Where(rows, q);
      var rest := Where(rows[1..], q);
      var k1 := FirstOfWhere(rows[1..], q, p);
      assert forall j :: 1 <= j < |rows| ==> rows[j] == rows[1..][j - 1];
      if q(rows[0]) {
        assert w == [rows[0]] + rest;
        if !p(rows[0]) {
          assert w[1..] == rest;
          k := k1 + 1;
        }
      } else {
        assert w == rest;
        k := k1 + 1;
      }
    }
  }

  /** `is_neighbor.str.lower() == "asset"`. */
  predicate IsAssetRow(r: Row) { Lower(r.isNeighbor) == "asset" }

  /** `is_neighbor.str.lower() == "neighbor"`. */
  predicate IsNeighborRow(r: Row) { Lower(r.isNeighbor) == "neighbor" }

  /** `df[df['asset_id'] == id]`. */
  function RowsOf(rows: seq<Row>, id: Value): seq<Row>
  {
    Where(rows, (r: Row) => r.assetId == id)
  }

  /**
   * The number in column `c` of row `r`. A row without the column reads 0,
   * which, like NaN, is not positive; in a filled table every numeric
   * column the table has is present.
   */
  function Cell(r: Row, c: string): real
  {
    if c in r.values then r.values[c] else 0.0
  }

  /** The values of column `c`, one per row. */
  function Column(rows: seq<Row>, c: string): seq<real>
  {
    seq(|rows|, i requires 0 <= i < |rows| => Cell(rows[i], c))
  }

  /**
   * The groups of `groupby("asset_id")`: every asset id that occurs, once
   * each, NaN ids excluded.
   */
  function GroupKeys(rows: seq<Row>): (keys: seq<Value>)
    ensures Distinct(keys)
    ensures forall k :: k in keys <==> k != Missing && exists r :: r in rows && r.assetId == k
  {
    if rows == [] then []
    else
      var n := |rows| - 1;
      var keys := GroupKeys(rows[..n]);
      assert rows == rows[..n] + [rows[n]];
      var id := rows[n].assetId;
      if id == Missing || id in keys then keys else keys + [id]
  }

  /**
   * `groupby("asset_id")["shannon"].mean()` for the group of `id`. A group
   * always has a row (`GroupHasRows`); the empty case only makes the
   * function total.
   */
  function GroupMean(f: Frame, id: Value): real
  {
    var rows := RowsOf(f.rows, id);
    if rows == [] then 0.0 else Mean(Column(rows, "shannon"))
  }

  /** Every group holds at least one row, so its mean is a true mean. */
  lemma GroupHasRows(f: Frame, id: Value)
    requires id in GroupKeys(f.rows)
    ensures RowsOf(f.rows, id) != []
    ensures GroupMean(f, id) == Mean(Column(RowsOf(f.rows, id), "shannon"))
  {
    var r :| r in f.rows && r.assetId == id;
    assert r in RowsOf(f.rows, id);
  }

  /** The series of group means, in group order. */
  function GroupMeans(f: Frame): (ms: seq<real>)
    ensures |ms| == |GroupKeys(f.rows)|
  {
    var keys := GroupKeys(f.rows);
    seq(|keys|, i requires 0 <= i < |keys| => GroupMean(f, keys[i]))
  }

  /** `asset_ranks[id]`. */
  function GroupRank(f: Frame, id: Value): real
  {
    AverageRank(GroupMeans(f), GroupMean(f, id))
  }

  lemma GroupMeanListed(f: Frame, id: Value)
    requires id in GroupKeys(f.rows)
    ensures GroupMean(f, id) in GroupMeans(f)
  {
    var keys := GroupKeys(f.rows);
    var i :| 0 <= i < |keys| && keys[i] == id;
    assert GroupMeans(f)[i] == GroupMean(f, id);
  }

  /** Every asset's rank lies between 1 and the number of assets. */
  lemma GroupRankBounds(f: Frame, id: Value)
    requires id in GroupKeys(f.rows)
    ensures 1.0 <= GroupRank(f, id) <= |GroupKeys(f.rows)| as real
  {
    GroupMeanListed(f, id);
    RankBounds(GroupMeans(f), GroupMean(f, id));
  }

  /** An asset whose mean Shannon index is higher is ranked strictly better. */
  lemma GroupRankOrdered(f: Frame, a: Value, b: Value)
    requires a in GroupKeys(f.rows) && b in GroupKeys(f.rows)
    requires GroupMean(f, a) > GroupMean(f, b)
    ensures GroupRank(f, a) < GroupRank(f, b)
  {
    GroupMeanListed(f, a);
    HigherMeanBetterRank(GroupMeans(f), GroupMean(f, a), GroupMean(f, b));
  }

  /** A mean at least as high never gets a worse rank. */
  lemma GroupRankMonotone(f: Frame, a: Value, b: Value)
    requires a in GroupKeys(f.rows)
    requires GroupMean(f, a) >= GroupMean(f, b)
    ensures GroupRank(f, a) <= GroupRank(f, b)
  {
    GroupMeanListed(f, a);
    AverageRankMonotone(GroupMeans(f), GroupMean(f, a), GroupMean(f, b));
  }

  /** Assets with equal mean Shannon indices share one (averaged) rank. */
  lemma GroupRankTied(f: Frame, a: Value, b: Value)
    requires a in GroupKeys(f.rows) && b in GroupKeys(f.rows)
    requires GroupMean(f, a) == GroupMean(f, b)
    ensures GroupRank(f, a) == GroupRank(f, b)
  {
    GroupRankMonotone(f, a, b);
    GroupRankMonotone(f, b, a);
  }

  // ---------------------------------------------------------------------
  // Filtering a fixed list of ecosystem names

  /** The names of `xs` that are in `allowed`, in the order of `xs`. */
  function Keep(xs: seq<string>, allowed: set<string>): (r: seq<string>)
    ensures forall x :: x in r <==> x in xs && x in allowed
    ensures |r| <= |xs|
  {
    if xs == [] then []
    else
      var n := |xs| - 1;
      assert xs == xs[..n] + [xs[n]];
      Keep(xs[..n], allowed) + (if xs[n] in allowed then [xs[n]] else [])
  }

  /** The position of the last occurrence of `x` in `xs`, or -1. */
  function LastIndex(xs: seq<string>, x: string): (k: int)
    ensures -1 <= k < |xs|
    ensures x in xs ==> 0 <= k && xs[k] == x
  {
    if xs == [] then -1
    else
      var n := |xs| - 1;
      assert xs == xs[..n] + [xs[n]];
      if xs[n] == x then n else LastIndex(xs[..n], x)
  }

  /** Filtering keeps the listed order: of two kept names, the earlier one comes first in the list. */
  lemma {:induction false} KeepOrdered(xs: seq<string>, allowed: set<string>)
    requires Distinct(xs)
    ensures forall i, j :: 0 <= i < j < |Keep(xs, allowed)| ==>
      LastIndex(xs, Keep(xs, allowed)[i]) < LastIndex(xs, Keep(xs, allowed)[j])
  {
    if xs != [] {
      var n := |xs| - 1;
      var front := Keep(xs[..n], allowed);
      KeepOrdered(xs[..n], allowed);
      var r := Keep(xs, allowed);
      assert r == front + (if xs[n] in allowed then [xs[n]] else []);
      forall i | 0 <= i < |front|
        ensures LastIndex(xs, front[i]) == LastIndex(xs[..n], front[i]) < n
      {
        assert front[i] in xs[..n];
        var m :| 0 <= m < n && xs[m] == front[i];
        assert xs[m] != xs[n];
      }
      forall i, j | 0 <= i < j < |r|
        ensures LastIndex(xs, r[i]) < LastIndex(xs, r[j])
      {
        assert r[i] == front[i];
        if j == |front| {
          assert r[j] == xs[n];
          assert LastIndex(xs, xs[n]) == n;
        } else {
          assert r[j] == front[j];
          assert LastIndex(xs[..n], front[i]) < LastIndex(xs[..n], front[j]);
        }
      }
    }
  }

  function Capitalized(names: seq<string>): (r: seq<string>)
    ensures |r| == |names|
  {
    seq(|names|, i requires 0 <= i < |names| => Capitalize(names[i]))
  }

  // ---------------------------------------------------------------------
  // The exact-location section

  datatype ExactLocation = ExactLocation(shannon: Option<real>, simpson: Option<real>, ecosystems: seq<string>, name: Option<Value>)

  /** The ecosystem columns the table has whose value in row `r` is positive. */
  function PositiveIn(columns: set<string>, r: Row): set<string>
  {
    set eco | eco in columns && Cell(r, eco) > 0.0
  }

  /**
   * Read from the first row tagged as the asset's own cell: both indices,
   * the positive ecosystems capitalised in `ExactOrder`, and the name when
   * the table has a name column.
   */
  function ExactOf(columns: set<string>, rows: seq<Row>): ExactLocation
  {
    match FirstWhere(rows, IsAssetRow)
    case None => ExactLocation(None, None, [], None)
    case Some(k) => ExactAt(columns, rows[k])
  }

  /** The exact section read from the asset's own row `r`. */
  function ExactAt(columns: set<string>, r: Row): ExactLocation
  {
    ExactLocation(
      Some(Cell(r, "shannon")), Some(Cell(r, "simpson")),
      Capitalized(Keep(ExactOrder, PositiveIn(columns, r))),
      if "name" in columns then Some(r.name.GetOr(Missing)) else None)
  }

  /**
   * Over the asset's rows of the joined table (`df[df['asset_id'] == id]`),
   * the exact section reads the first row of the whole table that belongs
   * to the asset and is tagged as its own cell, and is empty exactly when
   * there is none.
   */
  lemma ExactOfAssetRows(f: Frame, id: Value)
    ensures ExactOf(f.columns, RowsOf(f.rows, id)).shannon.None? <==>
      forall j :: 0 <= j < |f.rows| ==> !(f.rows[j].assetId == id && IsAssetRow(f.rows[j]))
    ensures ExactOf(f.columns, RowsOf(f.rows, id)).shannon.Some? ==>
      exists k ::
        && 0 <= k < |f.rows| && f.rows[k].assetId == id && IsAssetRow(f.rows[k])
        && (forall j :: 0 <= j < k ==> !(f.rows[j].assetId == id && IsAssetRow(f.rows[j])))
        && ExactOf(f.columns, RowsOf(f.rows, id)) == ExactAt(f.columns, f.rows[k])
  {
    var k := FirstOfWhere(f.rows, (r: Row) => r.assetId == id, IsAssetRow);
  }

  /**
   * The exact section is empty exactly when no row is tagged as the asset;
   * otherwise it reports the first such row, and lists precisely the
   * ecosystems positive there, in the fixed order.
   */
  lemma ExactSection(columns: set<string>, rows: seq<Row>)
    ensures var e := ExactOf(columns, rows);
      && (e.shannon.None? <==> forall j :: 0 <= j < |rows| ==> !IsAssetRow(rows[j]))
      && (e.shannon.None? ==> e.simpson.None? && e.ecosystems == [] && e.name.None?)
    ensures var e := ExactOf(columns, rows);
      e.shannon.Some? ==>
        exists k ::
          && 0 <= k < |rows| && IsAssetRow(rows[k])
          && (forall j :: 0 <= j < k ==> !IsAssetRow(rows[j]))
          && e.shannon == Some(Cell(rows[k], "shannon"))
          && e.simpson == Some(Cell(rows[k], "simpson"))
          && e.ecosystems == Capitalized(Keep(ExactOrder, PositiveIn(columns, rows[k])))
          && (forall eco :: eco in Keep(ExactOrder, PositiveIn(columns, rows[k])) <==>
                eco in ExactOrder && eco in columns && Cell(rows[k], eco) > 0.0)
          && (e.name.Some? <==> "name" in columns)
  {
    match FirstWhere(rows, IsAssetRow)
    case None =>
    case Some(k) =>
      assert rows[k] in rows;
      var kept := Keep(ExactOrder, PositiveIn(columns, rows[k]));
  }

  /** `', '.join(ecosystems) if ecosystems else "None"`. */
  function EcosystemText(ecosystems: seq<string>): string
  {
    if ecosystems == [] then "None" else Join(ecosystems, ", ")
  }

  // ---------------------------------------------------------------------
  // The surrounding-area section

  /** One coverage line's data: an ecosystem column and its mean over the neighbours, times 100. */
  type Coverage = (string, real)

  datatype Surroundings = Surroundings(avgShannon: Option<real>, avgSimpson: Option<real>, coverage: Option<seq<Coverage>>)

  function CoverageEntries(columns: set<string>, neighbors: seq<Row>, ecos: seq<string>): seq<Coverage>
    requires neighbors != []
  {
    if ecos == [] then []
    else
      var n := |ecos| - 1;
      CoverageEntries(columns, neighbors, ecos[..n])
        + (if ecos[n] in columns then [(ecos[n], Mean(Column(neighbors, ecos[n])) * 100.0)] else [])
  }

  /** Coverage lists exactly the listed columns the table has, in list order, each with 100 times its neighbour mean. */
  lemma {:induction false} CoverageEntriesCorrect(columns: set<string>, neighbors: seq<Row>, ecos: seq<string>)
    requires neighbors != []
    ensures var e := CoverageEntries(columns, neighbors, ecos);
      Ids(e) == Keep(ecos, columns)
    ensures var e := CoverageEntries(columns, neighbors, ecos);
      forall k :: 0 <= k < |e| ==>
        && e[k].0 in columns
        && e[k].1 == Mean(Column(neighbors, e[k].0)) * 100.0
  {
    if ecos != [] {
      var n := |ecos| - 1;
      CoverageEntriesCorrect(columns, neighbors, ecos[..n]);
      var front := CoverageEntries(columns, neighbors, ecos[..n]);
      var e := CoverageEntries(columns, neighbors, ecos);
      assert Ids(e) == Ids(front) + (if ecos[n] in columns then [ecos[n]] else []);
    }
  }

  /** Averages and coverage over the rows tagged as neighbours; all three absent when there are none. */
  function SurroundingsOf(columns: set<string>, rows: seq<Row>): Surroundings
  {
    var neighbors := Where(rows, IsNeighborRow);
    if neighbors == [] then Surroundings(None, None, None)
    else
      Surroundings(
        Some(Mean(Column(neighbors, "shannon"))),
        Some(Mean(Column(neighbors, "simpson"))),
        Some(CoverageEntries(columns, neighbors, CoverageOrder)))
  }

  /** The surrounding section is empty exactly when no row is tagged as a neighbour. */
  lemma SurroundingsPresence(columns: set<string>, rows: seq<Row>)
    ensures var s := SurroundingsOf(columns, rows);
      && (s.avgShannon.None? <==> forall r :: r in rows ==> !IsNeighborRow(r))
      && (s.avgSimpson.None? <==> s.avgShannon.None?)
      && (s.coverage.None? <==> s.avgShannon.None?)
  {
    var neighbors := Where(rows, IsNeighborRow);
    if neighbors != [] {
      assert neighbors[0] in neighbors;
    }
  }

  /**
   * With neighbours, the averages are the neighbour means and the coverage
   * lists every ecosystem column the table has, in coverage order, each at
   * 100 times its neighbour mean.
   */
  lemma SurroundingsContent(columns: set<string>, rows: seq<Row>)
    requires exists r :: r in rows && IsNeighborRow(r)
    ensures var s := SurroundingsOf(columns, rows);
      var neighbors := Where(rows, IsNeighborRow);
      && neighbors != []
      && s.avgShannon == Some(Mean(Column(neighbors, "shannon")))
      && s.avgSimpson == Some(Mean(Column(neighbors, "simpson")))
      && s.coverage.Some?
      && Ids(s.coverage.value) == Keep(CoverageOrder, columns)
      && (forall k :: 0 <= k < |s.coverage.value| ==>
            s.coverage.value[k].0 in columns &&
            s.coverage.value[k].1 == Mean(Column(neighbors, s.coverage.value[k].0)) * 100.0)
  {
    var neighbors := Where(rows, IsNeighborRow);
    var r :| r in rows && IsNeighborRow(r);
    assert r in neighbors;
    CoverageEntriesCorrect(columns, neighbors, CoverageOrder);
  }

  /** The coverage lines name exactly the ecosystem columns the table has, in the fixed order. */
  lemma CoverageOrderKept(columns: set<string>)
    ensures forall eco :: eco in Keep(CoverageOrder, columns) <==> eco in CoverageOrder && eco in columns
    ensures var r := Keep(CoverageOrder, columns);
      forall i, j :: 0 <= i < j < |r| ==> LastIndex(CoverageOrder, r[i]) < LastIndex(CoverageOrder, r[j])
  {
    KeepOrdered(CoverageOrder, columns);
  }

  /** The exact section lists its ecosystems in the fixed order. */
  lemma ExactOrderKept(allowed: set<string>)
    ensures var r := Keep(ExactOrder, allowed);
      forall i, j :: 0 <= i < j < |r| ==> LastIndex(ExactOrder, r[i]) < LastIndex(ExactOrder, r[j])
  {
    KeepOrdered(ExactOrder, allowed);
  }

  // ---------------------------------------------------------------------
  // The report text

  datatype Summary = Summary(assetId: Value, rank: real, total: nat, exact: ExactLocation, around: Surroundings)

  /** Everything one asset's report says, computed from the whole table. */
  function Summarize(f: Frame, id: Value): Summary
  {
    var rows := RowsOf(f.rows, id);
    Summary(id, GroupRank(f, id), |GroupKeys(f.rows)|, ExactOf(f.columns, rows), SurroundingsOf(f.columns, rows))
  }

  /** `int(asset_rank) if asset_rank else "N/A"`. */
  function RankText(rank: real): string
  {
    if rank != 0.0 then IntToString(rank.Floor) else NotAvailable
  }

  /** The printed rank of every asset is a whole number between 1 and the number of assets. */
  lemma RankTextIsPosition(f: Frame, id: Value)
    requires id in GroupKeys(f.rows)
    ensures exists k: nat :: 1 <= k <= |GroupKeys(f.rows)| && RankText(GroupRank(f, id)) == NatToString(k)
  {
    GroupRankBounds(f, id);
    var k: nat := GroupRank(f, id).Floor;
    assert RankText(GroupRank(f, id)) == NatToString(k);
  }

  function NameLine(name: Option<Value>, fmt: Formats): string
  {
    match name
    case None => ""
    case Some(v) => "\nName: " + Show(v, fmt)
  }

  /** The rank line, the rule, the exact section and the two neighbour averages. */
  function Body(s: Summary, radiusKm: nat, fmt: Formats): string
  {
    var e, a := s.exact, s.around;
    "\nBiodiversity Rank: #" + RankText(s.rank) + " out of " + NatToString(s.total) + "\n"
    + Rule + "\n"
    + "Exact Location:\n"
    + "  - Shannon Index: " + SafeFormat(e.shannon, fmt) + " (" + CategorizeShannon(e.shannon) + ")\n"
    + "  - Simpson Index: " + SafeFormat(e.simpson, fmt) + " (" + CategorizeSimpson(e.simpson) + ")\n"
    + "  - Ecosystems: " + EcosystemText(e.ecosystems) + "\n"
    + "Surrounding Area (" + NatToString(radiusKm) + "km radius):\n"
    + "  - Avg Shannon Index: " + SafeFormat(a.avgShannon, fmt) + " (" + CategorizeShannon(a.avgShannon) + ")\n"
    + "  - Avg Simpson Index: " + SafeFormat(a.avgSimpson, fmt) + " (" + CategorizeSimpson(a.avgSimpson) + ")\n"
  }

  function CoverageLine(c: Coverage, fmt: Formats): string
  {
    "    - " + Title(ReplaceChar(c.0, '_', ' ')) + ": " + SafeFormat(Some(c.1), fmt) + "%\n"
  }

  function CoverageLines(entries: seq<Coverage>, fmt: Formats): string
  {
    if entries == [] then ""
    else CoverageLines(entries[..|entries| - 1], fmt) + CoverageLine(entries[|entries| - 1], fmt)
  }

  function CoverageBlock(coverage: Option<seq<Coverage>>, fmt: Formats): string
  {
    match coverage
    case None => ""
    case Some(entries) => "  - % Coverage:\n" + CoverageLines(entries, fmt)
  }

  /** One asset's report text. */
  function RenderReport(s: Summary, radiusKm: nat, fmt: Formats): string
  {
    "\nAsset ID: " + Show(s.assetId, fmt) + NameLine(s.exact.name, fmt)
    + Body(s, radiusKm, fmt) + CoverageBlock(s.around.coverage, fmt)
  }

  // ---------------------------------------------------------------------
  // Building the reports

  /** One entry of the report dictionary. */
  datatype AssetReport = AssetReport(assetId: Value, report: string, rank: real, name: Option<Value>)

  function ReportIds(reports: seq<AssetReport>): (ids: seq<Value>)
    ensures |ids| == |reports|
  {
    seq(|reports|, i requires 0 <= i < |reports| => reports[i].assetId)
  }

  /**
   * `(a + b) + c == a + (b + c)` for text, as a lemma so that the methods
   * building a report see the regrouping without proving it in their own,
   * much larger, context.
   */
  lemma Assoc(a: string, b: string, c: string)
    ensures (a + b) + c == a + (b + c)
  {
  }

  lemma CoverageLinesSnoc(entries: seq<Coverage>, c: Coverage, fmt: Formats)
    ensures CoverageLines(entries + [c], fmt) == CoverageLines(entries, fmt) + CoverageLine(c, fmt)
  {
    assert (entries + [c])[..|entries|] == entries;
  }

  lemma CoverageEntriesSnoc(columns: set<string>, neighbors: seq<Row>, ecos: seq<string>, k: nat)
    requires neighbors != [] && k < |ecos|
    ensures CoverageEntries(columns, neighbors, ecos[..k + 1])
      == CoverageEntries(columns, neighbors, ecos[..k])
         + (if ecos[k] in columns then [(ecos[k], Mean(Column(neighbors, ecos[k])) * 100.0)] else [])
  {
    assert ecos[..k + 1][..k] == ecos[..k];
  }

  /** The coverage lines, built one ecosystem column at a time. */
  method AppendCoverage(report: string, columns: set<string>, neighbors: seq<Row>, ecos: seq<string>, fmt: Formats)
    returns (out: string)
    requires neighbors != []
    ensures out == report + CoverageLines(CoverageEntries(columns, neighbors, ecos), fmt)
  {
    out := report;
    var k := 0;
    while k < |ecos|
      invariant 0 <= k <= |ecos|
      invariant out == report + CoverageLines(CoverageEntries(columns, neighbors, ecos[..k]), fmt)
    {
      var eco := ecos[k];
      var before := CoverageEntries(columns, neighbors, ecos[..k]);
      CoverageEntriesSnoc(columns, neighbors, ecos, k);
      if eco in columns {
        var c := (eco, Mean(Column(neighbors, eco)) * 100.0);
        CoverageLinesSnoc(before, c, fmt);
        Assoc(report, CoverageLines(before, fmt), CoverageLine(c, fmt));
        out := out + CoverageLine(c, fmt);
        assert CoverageEntries(columns, neighbors, ecos[..k + 1]) == before + [c];
      } else {
        assert CoverageEntries(columns, neighbors, ecos[..k + 1]) == before;
      }
      k := k + 1;
    }
    assert ecos[..k] == ecos;
  }

  /** The neighbour rows an asset's summary averages over, and its coverage entries. */
  lemma SummaryCoverage(df: Frame, id: Value)
    ensures var neighbors := Where(RowsOf(df.rows, id), IsNeighborRow);
      Summarize(df, id).around.coverage
        == if neighbors == [] then None else Some(CoverageEntries(df.columns, neighbors, CoverageOrder))
  {
  }

  /** The body of the loop over sorted assets: one report, built piece by piece. */
  method BuildReport(s: Summary, columns: set<string>, neighbors: seq<Row>, radiusKm: nat, fmt: Formats)
    returns (report: string)
    requires s.around.coverage == if neighbors == [] then None else Some(CoverageEntries(columns, neighbors, CoverageOrder))
    ensures report == RenderReport(s, radiusKm, fmt)
  {
    var head := "\nAsset ID: " + Show(s.assetId, fmt);
    report := head;
    if s.exact.name.Some? {
      report := report + ("\nName: " + Show(s.exact.name.value, fmt));
      assert report == head + NameLine(s.exact.name, fmt);
    } else {
      assert head + "" == head;
      assert report == head + NameLine(s.exact.name, fmt);
    }
    report := report + Body(s, radiusKm, fmt);
    if neighbors != [] {
      var before := report;
      report := report + "  - % Coverage:\n";
      report := AppendCoverage(report, columns, neighbors, CoverageOrder, fmt);
      Assoc(before, "  - % Coverage:\n", CoverageLines(CoverageEntries(columns, neighbors, CoverageOrder), fmt));
    } else {
      assert report + "" == report;
    }
  }

  /** The dictionary entry for one asset. */
  function EntryFor(df: Frame, id: Value, radiusKm: nat, fmt: Formats): AssetReport
  {
    var s := Summarize(df, id);
    AssetReport(id, RenderReport(s, radiusKm, fmt), s.rank, s.exact.name)
  }

  /** In a sequence without repeats every element occurs once. */
  lemma {:induction false} DistinctOnce<T>(s: seq<T>)
    requires Distinct(s)
    ensures forall x :: multiset(s)[x] <= 1
  {
    if s != [] {
      var rest := s[1..];
      assert Distinct(rest) by {
        forall i, j | 0 <= i < j < |rest|
          ensures rest[i] != rest[j]
        {
          assert s[i + 1] != s[j + 1];
        }
      }
      DistinctOnce(rest);
      assert s == [s[0]] + rest;
      assert s[0] !in rest by {
        forall j | 0 <= j < |rest|
          ensures rest[j] != s[0]
        {
          assert s[j + 1] != s[0];
        }
      }
    }
  }

  /** An element at two positions occurs at least twice. */
  lemma RepeatCountsTwice<T>(s: seq<T>, i: nat, j: nat)
    requires i < j < |s| && s[i] == s[j]
    ensures multiset(s)[s[i]] >= 2
  {
    assert s == s[..i] + [s[i]] + s[i + 1..j] + [s[j]] + s[j + 1..];
  }

  /** Each asset id occurs once among the sorted ids: the report dictionary has no clashing keys. */
  lemma SortedIdsDistinct(df: Frame)
    ensures Distinct(SortedIds(df))
  {
    var ids := SortedIds(df);
    SortedIdsCorrect(df);
    DistinctOnce(GroupKeys(df.rows));
    forall i, j | 0 <= i < j < |ids|
      ensures ids[i] != ids[j]
    {
      if ids[i] == ids[j] {
        RepeatCountsTwice(ids, i, j);
      }
    }
  }

  /** An entry carries the asset's rank among all groups. */
  lemma EntryRank(df: Frame, id: Value, radiusKm: nat, fmt: Formats)
    ensures EntryFor(df, id, radiusKm, fmt).rank == GroupRank(df, id)
  {
  }

  /** The group means paired with their ids, in group order. */
  function Scores(df: Frame): (scored: seq<Scored>)
    ensures Ids(scored) == GroupKeys(df.rows)
  {
    var keys := GroupKeys(df.rows);
    var scored := seq(|keys|, i requires 0 <= i < |keys| => (keys[i], GroupMean(df, keys[i])));
    assert Ids(scored) == keys;
    scored
  }

  /** Sorting the scores keeps every id with its own mean and orders them by descending mean. */
  lemma SortedScores(df: Frame)
    ensures var sorted := SortDesc(Scores(df));
      && Descending(sorted)
      && multiset(Ids(sorted)) == multiset(GroupKeys(df.rows))
      && forall k :: 0 <= k < |sorted| ==>
           sorted[k].0 in GroupKeys(df.rows) && sorted[k].1 == GroupMean(df, sorted[k].0)
  {
    var scored := Scores(df);
    var sorted := SortDesc(scored);
    SortDescCorrect(scored);
    forall k | 0 <= k < |sorted|
      ensures sorted[k].0 in GroupKeys(df.rows) && sorted[k].1 == GroupMean(df, sorted[k].0)
    {
      assert sorted[k] in multiset(scored);
      var m :| 0 <= m < |scored| && scored[m] == sorted[k];
    }
  }

  /** One asset's entry: its summary, its neighbour rows, and the report built from them. */
  method MakeEntry(df: Frame, id: Value, radiusKm: nat, fmt: Formats) returns (entry: AssetReport)
    ensures entry == EntryFor(df, id, radiusKm, fmt)
  {
    var s := Summarize(df, id);
    var neighbors := Where(RowsOf(df.rows, id), IsNeighborRow);
    SummaryCoverage(df, id);
    var report := BuildReport(s, df.columns, neighbors, radiusKm, fmt);
    entry := AssetReport(id, report, s.rank, s.exact.name);
  }

  /** The ids of the group-mean series after `sort_values(ascending=False)`. */
  function SortedIds(df: Frame): (ids: seq<Value>)
  {
    Ids(SortDesc(Scores(df)))
  }

  /** The sorted ids are the asset ids, each once, in order of non-increasing mean Shannon index. */
  lemma SortedIdsCorrect(df: Frame)
    ensures var ids := SortedIds(df);
      && multiset(ids) == multiset(GroupKeys(df.rows))
      && (forall k :: 0 <= k < |ids| ==> ids[k] in GroupKeys(df.rows))
      && forall i, j :: 0 <= i < j < |ids| ==> GroupMean(df, ids[i]) >= GroupMean(df, ids[j])
  {
    SortedScores(df);
  }

  /** `[entry(id) for id in ids]`, built from the back as the loop that fills it does. */
  function Entries(df: Frame, ids: seq<Value>, radiusKm: nat, fmt: Formats): (r: seq<AssetReport>)
    ensures |r| == |ids|
  {
    if ids == [] then [] else Entries(df, ids[..|ids| - 1], radiusKm, fmt) + [EntryFor(df, ids[|ids| - 1], radiusKm, fmt)]
  }

  lemma {:induction false} EntriesAt(df: Frame, ids: seq<Value>, radiusKm: nat, fmt: Formats)
    ensures forall k :: 0 <= k < |ids| ==> Entries(df, ids, radiusKm, fmt)[k] == EntryFor(df, ids[k], radiusKm, fmt)
  {
    if ids != [] {
      EntriesAt(df, ids[..|ids| - 1], radiusKm, fmt);
    }
  }

  /**
   * Entry `k` is the entry for the `k`-th id: it carries that id and the
   * id's rank.
   */
  lemma EntriesFacts(df: Frame, ids: seq<Value>, radiusKm: nat, fmt: Formats)
    ensures var reports := Entries(df, ids, radiusKm, fmt);
      && ReportIds(reports) == ids
      && (forall k :: 0 <= k < |ids| ==> reports[k] == EntryFor(df, ids[k], radiusKm, fmt))
      && forall k :: 0 <= k < |ids| ==> reports[k].rank == GroupRank(df, ids[k])
  {
    var reports := Entries(df, ids, radiusKm, fmt);
    EntriesAt(df, ids, radiusKm, fmt);
    forall k | 0 <= k < |ids|
      ensures reports[k].assetId == ids[k]
      ensures reports[k].rank == GroupRank(df, ids[k])
    {
      EntryRank(df, ids[k], radiusKm, fmt);
    }
  }

  /** The report loop of `generate_asset_report`: one entry per id, in order. */
  method BuildEntries(df: Frame, ids: seq<Value>, radiusKm: nat, fmt: Formats) returns (reports: seq<AssetReport>)
    ensures reports == Entries(df, ids, radiusKm, fmt)
  {
    reports := [];
    for i := 0 to |ids|
      invariant reports == Entries(df, ids[..i], radiusKm, fmt)
    {
      var entry := MakeEntry(df, ids[i], radiusKm, fmt);
      assert ids[..i + 1][..i] == ids[..i];
      reports := reports + [entry];
    }
    assert ids[..|ids|] == ids;
  }

  /**
   * `generate_asset_report`: one entry per asset, in the order of
   * `SortedIds`, each holding the asset's rendered report, rank and name.
   */
  method GenerateAssetReport(df: Frame, radiusKm: nat, fmt: Formats) returns (reports: seq<AssetReport>)
    requires Analyzable(df)
    ensures ReportIds(reports) == SortedIds(df)
    ensures forall k :: 0 <= k < |reports| ==> reports[k] == EntryFor(df, reports[k].assetId, radiusKm, fmt)
    ensures forall k :: 0 <= k < |reports| ==> reports[k].rank == GroupRank(df, reports[k].assetId)
  {
    var ids := SortedIds(df);
    reports := BuildEntries(df, ids, radiusKm, fmt);
    EntriesFacts(df, ids, radiusKm, fmt);
  }
}
