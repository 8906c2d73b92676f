/**
 * The per-asset query loop of `query_osa_data`: the deduplicated cell set
 * of an asset, the disjunctive `hex6` predicate sent to the dataset, the
 * Neighbor/Asset tag and asset stamp put on every returned row, and the
 * failure-tolerant concatenation of the per-asset results.
 */
module NeighborhoodQuery {
  import opened Wrappers
  import opened Strings
  import opened Values
  import opened AssetProcessor

  /** A record of the dataset: its `hex6` cell and its numeric columns. */
  datatype SourceRow = SourceRow(hex6: string, values: map<string, real>)

  /**
   * What `next(osa_data.select(query).dataframes())` gives back: an
   * exception of any kind, or a data frame with its columns and rows.
   */
  datatype Selection = Raised | Selected(columns: set<string>, rows: seq<SourceRow>)

  /**
   * The `except` branch is taken: the select raised, or the frame has no
   * `hex6` column, so reading `result_df['hex6']` raises a KeyError.
   */
  predicate Fails(outcome: Selection)
  {
    outcome.Raised? || "hex6" !in outcome.columns
  }

  /** A record joined with the asset it was fetched for. */
  datatype Row = Row(hex6: string, values: map<string, real>, isNeighbor: string, assetId: Value, name: Option<Value>)

  datatype Frame = Frame(columns: set<string>, rows: seq<Row>)

  const NeighborTag: string := "Neighbor"
  const AssetTag: string := "Asset"
  const ClauseOpen: string := "hex6 == \""
  const Separator: string := " OR "

  predicate Distinct<T(==)>(s: seq<T>)
  {
    forall i, j :: 0 <= i < j < |s| ==> s[i] != s[j]
  }

  /** `{h3_index}` updated with `h3_neighbors`: the asset's own cell and its disk, without duplicates. */
  function CellSet(a: Asset): set<string>
  {
    {a.h3Index} + set h | h in a.h3Neighbors
  }

  /** `f'hex6 == "{h}"'`. */
  function Clause(h: string): string
  {
    ClauseOpen + h + "\""
  }

  /** `" OR ".join(...)` of one clause per listed cell. */
  function RenderQuery(cells: seq<string>): string
  {
    Join(seq(|cells|, i requires 0 <= i < |cells| => Clause(cells[i])), Separator)
  }

  /** `q` is the query the loop can send for asset `a`, whatever order `list(hex6_set)` took. */
  ghost predicate IsQueryFor(q: string, a: Asset)
  {
    exists cells :: q == RenderQuery(cells) && Distinct(cells) && (forall h :: h in cells <==> h in CellSet(a))
  }

  /** Each of `queries` is the query for the asset at the same position. */
  ghost predicate QueriesFor(queries: seq<string>, assets: seq<Asset>)
  {
    |queries| == |assets| &&
    (queries == [] || (QueriesFor(queries[..|queries| - 1], assets[..|assets| - 1])
                       && IsQueryFor(queries[|queries| - 1], assets[|assets| - 1])))
  }

  lemma {:induction false} QueriesForAt(queries: seq<string>, assets: seq<Asset>)
    requires QueriesFor(queries, assets)
    ensures forall i :: 0 <= i < |queries| ==> IsQueryFor(queries[i], assets[i])
  {
    if queries != [] {
      QueriesForAt(queries[..|queries| - 1], assets[..|assets| - 1]);
    }
  }

  /**
   * Lines 219-226: the cell set, listed in an order the model leaves open
   * (Python's set iteration order), rendered as one clause per cell.
   */
  method BuildQuery(a: Asset) returns (query: string, cells: seq<string>)
    ensures Distinct(cells)
    ensures forall h :: h in cells <==> h in CellSet(a)
    ensures |cells| == |CellSet(a)|
    ensures query == RenderQuery(cells)
  {
    var hexSet := CellSet(a);
    cells := [];
    var rest := hexSet;
    while rest != {}
      invariant rest <= hexSet
      invariant forall h :: h in cells <==> h in hexSet && h !in rest
      invariant Distinct(cells)
      invariant |cells| + |rest| == |hexSet|
      decreases |rest|
    {
      var h :| h in rest;
      cells := cells + [h];
      rest := rest - {h};
    }
    query := RenderQuery(cells);
  }

  /** Reads the cells back out of a non-empty query; None for text that is not such a query. */
  function ParseClauses(q: string): Option<seq<string>>
    decreases |q|
  {
    if |q| < |ClauseOpen| || q[..|ClauseOpen|] != ClauseOpen then None
    else
      var body := q[|ClauseOpen|..];
      match IndexOf(body, "\"")
      case None => None
      case Some(i) =>
        var cell := body[..i];
        var after := body[i + 1..];
        if after == [] then Some([cell])
        else if |after| >= |Separator| && after[..|Separator|] == Separator then
          match ParseClauses(after[|Separator|..])
          case None => None
          case Some(more) => Some([cell] + more)
        else None
  }

  function ParseQuery(q: string): Option<seq<string>>
  {
    if q == "" then Some([]) else ParseClauses(q)
  }

  predicate QuoteFree(cells: seq<string>)
  {
    forall i :: 0 <= i < |cells| ==> '"' !in cells[i]
  }

  /** The clauses of more than one cell are the first clause, a separator, and the clauses of the rest. */
  lemma RenderQueryUnfold(cells: seq<string>)
    requires |cells| > 0
    ensures |cells| == 1 ==> RenderQuery(cells) == Clause(cells[0])
    ensures |cells| > 1 ==> RenderQuery(cells) == Clause(cells[0]) + Separator + RenderQuery(cells[1..])
  {
    var clauses := seq(|cells|, i requires 0 <= i < |cells| => Clause(cells[i]));
    if |cells| > 1 {
      assert clauses[1..] == seq(|cells[1..]|, i requires 0 <= i < |cells[1..]| => Clause(cells[1..][i]));
    }
  }

  /** Past the opening of a clause, the first quote is the one closing a quote-free cell. */
  lemma ClauseBody(c: string, tail: string)
    requires '"' !in c
    ensures var q := Clause(c) + tail;
      && |q| >= |ClauseOpen| && q[..|ClauseOpen|] == ClauseOpen
      && IndexOf(q[|ClauseOpen|..], "\"") == Some(|c|)
      && q[|ClauseOpen|..][..|c|] == c
      && q[|ClauseOpen|..][|c| + 1..] == tail
  {
    var q := Clause(c) + tail;
    assert q[..|ClauseOpen|] == ClauseOpen;
    var body := q[|ClauseOpen|..];
    assert body == c + ("\"" + tail);
    assert forall k :: 0 <= k < |c| ==> c[k] != "\""[0];
    IndexOfSkips(c, "\"" + tail, "\"");
    IndexOfAtStart("\"", tail);
    assert body[..|c|] == c;
    assert body[|c| + 1..] == tail;
  }

  /** Reading one clause of a quote-free cell stops at its closing quote. */
  lemma ParseClauseHead(c: string, tail: string)
    requires '"' !in c
    ensures tail == [] ==> ParseClauses(Clause(c) + tail) == Some([c])
    ensures |tail| >= |Separator| && tail[..|Separator|] == Separator ==>
      ParseClauses(Clause(c) + tail) ==
        match ParseClauses(tail[|Separator|..])
        case None => None
        case Some(more) => Some([c] + more)
  {
    ClauseBody(c, tail);
  }

  lemma ParseRenderOne(c: string)
    requires '"' !in c
    ensures ParseClauses(RenderQuery([c])) == Some([c])
  {
    RenderQueryUnfold([c]);
    ParseClauseHead(c, []);
    assert Clause(c) + [] == Clause(c);
  }

  lemma ParseRenderMore(c: string, rest: string)
    requires '"' !in c
    ensures ParseClauses(Clause(c) + Separator + rest) ==
      match ParseClauses(rest)
      case None => None
      case Some(more) => Some([c] + more)
  {
    ParseClauseHead(c, Separator + rest);
    assert (Separator + rest)[..|Separator|] == Separator;
    assert (Separator + rest)[|Separator|..] == rest;
    assert Clause(c) + Separator + rest == Clause(c) + (Separator + rest);
  }

  lemma {:induction false} ParseRenderClauses(cells: seq<string>)
    requires |cells| > 0 && QuoteFree(cells)
    ensures ParseClauses(RenderQuery(cells)) == Some(cells)
  {
    assert '"' !in cells[0];
    if |cells| == 1 {
      ParseRenderOne(cells[0]);
      assert cells == [cells[0]];
    } else {
      RenderQueryUnfold(cells);
      ParseRenderMore(cells[0], RenderQuery(cells[1..]));
      ParseRenderClauses(cells[1..]);
      assert [cells[0]] + cells[1..] == cells;
    }
  }

  /**
   * The query holds exactly one clause per listed cell, in order, joined by
   * " OR ": reading it back gives the cells again (h3 cell ids are
   * hexadecimal, so they hold no double quote).
   */
  lemma QueryRoundTrip(cells: seq<string>)
    requires QuoteFree(cells)
    ensures ParseQuery(RenderQuery(cells)) == Some(cells)
  {
    if |cells| > 0 {
      ParseRenderClauses(cells);
      assert RenderQuery(cells) != "" by {
        assert |RenderQuery(cells)| >= |Clause(cells[0])| by {
          var clauses := seq(|cells|, i requires 0 <= i < |cells| => Clause(cells[i]));
          JoinLength(clauses, Separator);
          TotalLengthLowerBound(clauses);
        }
      }
    }
  }

  lemma {:induction false} TotalLengthLowerBound(parts: seq<string>)
    requires |parts| > 0
    ensures TotalLength(parts) >= |parts[0]|
  {
  }

  /** A query for k cells is k clauses and k - 1 separators long: a single cell gives no " OR ". */
  lemma QueryLength(cells: seq<string>)
    requires |cells| > 0
    ensures |RenderQuery(cells)| == TotalLength(seq(|cells|, i requires 0 <= i < |cells| => Clause(cells[i]))) + (|cells| - 1) * |Separator|
    ensures |cells| == 1 ==> RenderQuery(cells) == Clause(cells[0])
  {
    JoinLength(seq(|cells|, i requires 0 <= i < |cells| => Clause(cells[i])), Separator);
  }

  /** Line 234: 'Neighbor' for a cell of the disk other than the asset's own, 'Asset' for everything else. */
  function Tag(a: Asset, hex6: string): string
  {
    if hex6 != a.h3Index && hex6 in a.h3Neighbors then NeighborTag else AssetTag
  }

  /**
   * After the report's `.str.lower()`, a row counts as a neighbour exactly
   * when its cell is in the disk and is not the asset's own cell; every
   * other row, including one outside the queried set, counts as the asset's.
   */
  lemma TagIsMembership(a: Asset, hex6: string)
    ensures Lower(Tag(a, hex6)) == "neighbor" <==> hex6 != a.h3Index && hex6 in a.h3Neighbors
    ensures Lower(Tag(a, hex6)) == "asset" <==> hex6 == a.h3Index || hex6 !in a.h3Neighbors
    ensures hex6 == a.h3Index ==> Lower(Tag(a, hex6)) == "asset"
  {
    assert Lower(NeighborTag) == "neighbor";
    assert Lower(AssetTag) == "asset";
  }

  /** Lines 233-242: tag the row and stamp it with the asset's id and, when the table has one, its name. */
  function StampRow(a: Asset, r: SourceRow): Row
  {
    Row(r.hex6, r.values, Tag(a, r.hex6), a.assetId, a.name)
  }

  function TaggedFrame(a: Asset, columns: set<string>, rows: seq<SourceRow>): (f: Frame)
  {
    Frame(columns + {"is_neighbor", "asset_id"} + (if a.name.Some? then {"name"} else {}),
          seq(|rows|, k requires 0 <= k < |rows| => StampRow(a, rows[k])))
  }

  /** What the remote source answers to each query. */
  function Outcomes(queries: seq<string>, select: string -> Selection): (r: seq<Selection>)
    ensures |r| == |queries|
  {
    if queries == [] then []
    else
      var n := |queries| - 1;
      Outcomes(queries[..n], select) + [select(queries[n])]
  }

  lemma {:induction false} OutcomesAt(queries: seq<string>, select: string -> Selection)
    ensures forall i :: 0 <= i < |queries| ==> Outcomes(queries, select)[i] == select(queries[i])
  {
    if queries != [] {
      var n := |queries| - 1;
      OutcomesAt(queries[..n], select);
    }
  }

  /** `all_results`: the tagged frames of the assets whose query succeeded, in asset order. */
  function SuccessFrames(assets: seq<Asset>, outcomes: seq<Selection>): seq<Frame>
    requires |assets| == |outcomes|
  {
    if assets == [] then []
    else
      var n := |assets| - 1;
      SuccessFrames(assets[..n], outcomes[..n]) + FramesOf(assets[n], outcomes[n])
  }

  /** The frame one asset contributes to `all_results`: none when its query failed. */
  function FramesOf(a: Asset, outcome: Selection): seq<Frame>
  {
    if Fails(outcome) then [] else [TaggedFrame(a, outcome.columns, outcome.rows)]
  }

  /** The asset ids of the "Error querying for asset" warnings, in asset order. */
  function FailedIds(assets: seq<Asset>, outcomes: seq<Selection>): seq<Value>
    requires |assets| == |outcomes|
  {
    if assets == [] then []
    else
      var n := |assets| - 1;
      FailedIds(assets[..n], outcomes[..n]) + (if Fails(outcomes[n]) then [assets[n].assetId] else [])
  }

  /** `pd.concat(frames, ignore_index=True)`. */
  function Concat(frames: seq<Frame>): Frame
  {
    if frames == [] then Frame({}, [])
    else
      var init := Concat(frames[..|frames| - 1]);
      var last := frames[|frames| - 1];
      Frame(init.columns + last.columns, init.rows + last.rows)
  }

  /** The value of `query_osa_data`: None when no query succeeded. */
  function Aggregate(assets: seq<Asset>, outcomes: seq<Selection>): Option<Frame>
    requires |assets| == |outcomes|
  {
    var frames := SuccessFrames(assets, outcomes);
    if frames == [] then None else Some(Concat(frames))
  }

  /** The result is None exactly when every per-asset query failed. */
  lemma {:induction false} NoFramesIffAllFailed(assets: seq<Asset>, outcomes: seq<Selection>)
    requires |assets| == |outcomes|
    ensures SuccessFrames(assets, outcomes) == [] <==> forall i :: 0 <= i < |outcomes| ==> Fails(outcomes[i])
  {
    if assets != [] {
      var n := |assets| - 1;
      NoFramesIffAllFailed(assets[..n], outcomes[..n]);
      assert forall i :: 0 <= i < n ==> outcomes[..n][i] == outcomes[i];
    }
  }

  /** No asset is lost: each one either contributes a frame or is named in a warning. */
  lemma {:induction false} EveryAssetAccountedFor(assets: seq<Asset>, outcomes: seq<Selection>)
    requires |assets| == |outcomes|
    ensures |SuccessFrames(assets, outcomes)| + |FailedIds(assets, outcomes)| == |assets|
  {
    if assets != [] {
      var n := |assets| - 1;
      EveryAssetAccountedFor(assets[..n], outcomes[..n]);
    }
  }

  /** `row` is a record that the query for asset `a` returned, tagged and stamped for `a`. */
  predicate FromAsset(row: Row, a: Asset, outcome: Selection)
  {
    && !Fails(outcome)
    && SourceRow(row.hex6, row.values) in outcome.rows
    && row.assetId == a.assetId
    && row.name == a.name
    && row.isNeighbor == Tag(a, row.hex6)
  }

  lemma ConcatSnoc(frames: seq<Frame>, f: Frame)
    ensures Concat(frames + [f]).rows == Concat(frames).rows + f.rows
  {
    assert (frames + [f])[..|frames|] == frames;
  }

  function RowCount(outcome: Selection): nat
  {
    if Fails(outcome) then 0 else |outcome.rows|
  }

  /** For each row of the combined result, the position of the asset whose query returned it. */
  function Origins(assets: seq<Asset>, outcomes: seq<Selection>): seq<nat>
    requires |assets| == |outcomes|
  {
    if assets == [] then []
    else
      var n := |assets| - 1;
      Origins(assets[..n], outcomes[..n]) + seq(RowCount(outcomes[n]), _ => n)
  }

  /** The rows of `pd.concat(all_results)`. */
  function CombinedRows(assets: seq<Asset>, outcomes: seq<Selection>): seq<Row>
    requires |assets| == |outcomes|
  {
    Concat(SuccessFrames(assets, outcomes)).rows
  }

  /** Origins are valid asset positions, in non-decreasing order. */
  lemma {:induction false} OriginsOrdered(assets: seq<Asset>, outcomes: seq<Selection>)
    requires |assets| == |outcomes|
    ensures forall j :: 0 <= j < |Origins(assets, outcomes)| ==> Origins(assets, outcomes)[j] < |assets|
    ensures forall j, k :: 0 <= j <= k < |Origins(assets, outcomes)| ==> Origins(assets, outcomes)[j] <= Origins(assets, outcomes)[k]
  {
    if assets != [] {
      var n := |assets| - 1;
      var init := Origins(assets[..n], outcomes[..n]);
      OriginsOrdered(assets[..n], outcomes[..n]);
      var tail: seq<nat> := seq(RowCount(outcomes[n]), _ => n);
      var origin := init + tail;
      assert Origins(assets, outcomes) == origin;
      forall j | 0 <= j < |origin|
        ensures origin[j] <= n
      {
        if j < |init| {
          assert origin[j] == init[j];
        } else {
          assert origin[j] == tail[j - |init|];
        }
      }
      forall j, k | 0 <= j <= k < |origin|
        ensures origin[j] <= origin[k]
      {
        if k < |init| {
          assert origin[j] == init[j] && origin[k] == init[k];
        } else {
          assert origin[k] == tail[k - |init|] == n;
          if j < |init| {
            assert origin[j] == init[j];
          } else {
            assert origin[j] == tail[j - |init|];
          }
        }
      }
    }
  }

  /**
   * Every row of the combined result was returned by the query of one asset
   * and carries that asset's stamp and tag, and the rows come asset by
   * asset in input order.
   */
  lemma {:induction false} AggregatedRowsStamped(assets: seq<Asset>, outcomes: seq<Selection>)
    requires |assets| == |outcomes|
    ensures |Origins(assets, outcomes)| == |CombinedRows(assets, outcomes)|
    ensures forall j :: 0 <= j < |CombinedRows(assets, outcomes)| ==>
      Origins(assets, outcomes)[j] < |assets| &&
      FromAsset(CombinedRows(assets, outcomes)[j], assets[Origins(assets, outcomes)[j]], outcomes[Origins(assets, outcomes)[j]])
    ensures forall j, k :: 0 <= j <= k < |Origins(assets, outcomes)| ==> Origins(assets, outcomes)[j] <= Origins(assets, outcomes)[k]
  {
    OriginsOrdered(assets, outcomes);
    if assets != [] {
      var n := |assets| - 1;
      var init := SuccessFrames(assets[..n], outcomes[..n]);
      AggregatedRowsStamped(assets[..n], outcomes[..n]);
      var initRows := CombinedRows(assets[..n], outcomes[..n]);
      var initOrigin := Origins(assets[..n], outcomes[..n]);
      var origin := Origins(assets, outcomes);
      var rows;
      if Fails(outcomes[n]) {
        assert SuccessFrames(assets, outcomes) == init;
        rows := initRows;
      } else {
        var f := TaggedFrame(assets[n], outcomes[n].columns, outcomes[n].rows);
        assert SuccessFrames(assets, outcomes) == init + [f];
        ConcatSnoc(init, f);
        rows := initRows + f.rows;
      }
      assert rows == CombinedRows(assets, outcomes);
      forall j | 0 <= j < |rows|
        ensures FromAsset(rows[j], assets[origin[j]], outcomes[origin[j]])
      {
        if j < |initRows| {
          var o := initOrigin[j];
          assert origin[j] == o && rows[j] == initRows[j];
          assert assets[..n][o] == assets[o] && outcomes[..n][o] == outcomes[o];
        } else {
          var source := outcomes[n].rows;
          var k := j - |initRows|;
          assert origin[j] == n;
          assert rows[j] == StampRow(assets[n], source[k]);
          assert SourceRow(rows[j].hex6, rows[j].values) == source[k];
        }
      }
    }
  }

  lemma AllFailedIffNone(assets: seq<Asset>, queries: seq<string>, select: string -> Selection)
    requires |assets| == |queries|
    ensures Aggregate(assets, Outcomes(queries, select)).None? <==> forall i :: 0 <= i < |queries| ==> Fails(select(queries[i]))
  {
    NoFramesIffAllFailed(assets, Outcomes(queries, select));
    OutcomesAt(queries, select);
  }

  /**
   * A frame without a `hex6` column is a failure, even one with no rows:
   * the asset gets a warning and the result is None.
   */
  lemma MissingHex6Warns(a: Asset, columns: set<string>)
    requires "hex6" !in columns
    ensures FailedIds([a], [Selected(columns, [])]) == [a.assetId]
    ensures Aggregate([a], [Selected(columns, [])]).None?
  {
    assert [a][..0] == [] && [Selected(columns, [])][..0] == [];
    assert SuccessFrames([a], [Selected(columns, [])]) == [];
  }

  /**
   * An empty frame that has the `hex6` column is a success: no warning, and
   * a result with no rows.
   */
  lemma EmptyHex6FrameSucceeds(a: Asset, columns: set<string>)
    requires "hex6" in columns
    ensures FailedIds([a], [Selected(columns, [])]) == []
    ensures Aggregate([a], [Selected(columns, [])]).Some?
    ensures Aggregate([a], [Selected(columns, [])]).value.rows == []
  {
    var o := Selected(columns, []);
    var f := TaggedFrame(a, columns, []);
    assert FramesOf(a, o) == [f];
    assert [a][..0] == [] && [o][..0] == [];
    assert SuccessFrames([a], [o]) == [f];
    ConcatSnoc([], f);
    assert [] + [f] == [f];
  }

  /**
   * One pass of the loop body up to the remote call (lines 219-230): build
   * the query for the asset and send it.
   */
  method QueryAsset(a: Asset, select: string -> Selection) returns (query: string, outcome: Selection)
    ensures IsQueryFor(query, a)
    ensures outcome == select(query)
  {
    var cells;
    query, cells := BuildQuery(a);
    outcome := select(query);
  }

  lemma SuccessFramesSnoc(assets: seq<Asset>, outcomes: seq<Selection>, a: Asset, o: Selection)
    requires |assets| == |outcomes|
    ensures SuccessFrames(assets + [a], outcomes + [o]) == SuccessFrames(assets, outcomes) + FramesOf(a, o)
  {
    assert (assets + [a])[..|assets|] == assets;
    assert (outcomes + [o])[..|assets|] == outcomes;
  }

  lemma FailedIdsSnoc(assets: seq<Asset>, outcomes: seq<Selection>, a: Asset, o: Selection)
    requires |assets| == |outcomes|
    ensures FailedIds(assets + [a], outcomes + [o])
      == FailedIds(assets, outcomes) + (if Fails(o) then [a.assetId] else [])
  {
    assert (assets + [a])[..|assets|] == assets;
    assert (outcomes + [o])[..|assets|] == outcomes;
  }

  /** Querying asset `i` adds its frame, or its warning, after those of the assets before it. */
  lemma CollectStep(assets: seq<Asset>, i: nat, queries: seq<string>, query: string, select: string -> Selection)
    requires i < |assets| && |queries| == i
    ensures SuccessFrames(assets[..i + 1], Outcomes(queries + [query], select))
      == SuccessFrames(assets[..i], Outcomes(queries, select)) + FramesOf(assets[i], select(query))
    ensures FailedIds(assets[..i + 1], Outcomes(queries + [query], select))
      == FailedIds(assets[..i], Outcomes(queries, select)) + (if Fails(select(query)) then [assets[i].assetId] else [])
  {
    assert assets[..i + 1] == assets[..i] + [assets[i]];
    assert (queries + [query])[..i] == queries;
    assert Outcomes(queries + [query], select) == Outcomes(queries, select) + [select(query)];
    SuccessFramesSnoc(assets[..i], Outcomes(queries, select), assets[i], select(query));
    FailedIdsSnoc(assets[..i], Outcomes(queries, select), assets[i], select(query));
  }

  /**
   * The loop of `query_osa_data` (lines 214-247): one query per asset in
   * input order; a query that raises is skipped with a warning, a frame
   * that comes back is tagged and kept. `queries` records, for the proof,
   * the query sent for each asset.
   */
  method CollectFrames(assets: seq<Asset>, select: string -> Selection)
    returns (allResults: seq<Frame>, warnings: seq<Value>, ghost queries: seq<string>)
    ensures |queries| == |assets|
    ensures QueriesFor(queries, assets)
    ensures allResults == SuccessFrames(assets, Outcomes(queries, select))
    ensures warnings == FailedIds(assets, Outcomes(queries, select))
    ensures |allResults| + |warnings| == |assets|
  {
    allResults := [];
    warnings := [];
    queries := [];
    for i := 0 to |assets|
      invariant |queries| == i
      invariant QueriesFor(queries, assets[..i])
      invariant allResults == SuccessFrames(assets[..i], Outcomes(queries, select))
      invariant warnings == FailedIds(assets[..i], Outcomes(queries, select))
    {
      var asset := assets[i];
      var query, outcome := QueryAsset(asset, select);
      if !Fails(outcome) {
        allResults := allResults + [TaggedFrame(asset, outcome.columns, outcome.rows)];
      } else {
        warnings := warnings + [asset.assetId];
      }
      CollectStep(assets, i, queries, query, select);
      assert assets[..i + 1][..i] == assets[..i];
      assert (queries + [query])[..i] == queries;
      queries := queries + [query];
    }
    assert assets[..|assets|] == assets;
    EveryAssetAccountedFor(assets, Outcomes(queries, select));
  }

  /**
   * `query_osa_data` after the connection is made: the successful frames
   * concatenated in asset order, or None if every query failed.
   */
  method QueryOsaData(table: AssetTable, select: string -> Selection)
    returns (result: Option<Frame>, warnings: seq<Value>, ghost queries: seq<string>)
    ensures |queries| == |table.assets|
    ensures forall i :: 0 <= i < |queries| ==> IsQueryFor(queries[i], table.assets[i])
    ensures result == Aggregate(table.assets, Outcomes(queries, select))
    ensures warnings == FailedIds(table.assets, Outcomes(queries, select))
    ensures result.None? <==> forall i :: 0 <= i < |queries| ==> Fails(select(queries[i]))
    ensures |warnings| <= |table.assets|
    ensures result.None? <==> |warnings| == |table.assets|
  {
    var allResults;
    allResults, warnings, queries := CollectFrames(table.assets, select);
    QueriesForAt(queries, table.assets);
    AllFailedIffNone(table.assets, queries, select);
    if allResults != [] {
      result := Some(Concat(allResults));
    } else {
      result := None;
    }
  }
}
