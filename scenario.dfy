/**
 * A worked example of the analysis: one asset whose own cell has Shannon
 * index 3.2, Simpson index 0.25 and coral, and two neighbouring cells.
 */
module Scenario {
  import opened Wrappers
  import opened Strings
  import opened Values
  import opened NeighborhoodQuery
  import opened Ranking
  import opened Biodiversity

  const Columns: set<string> := {"hex6", "shannon", "simpson", "coral", "is_neighbor", "asset_id"}

  function Cells(shannon: real, simpson: real, coral: real): map<string, real>
  {
    map["shannon" := shannon, "simpson" := simpson, "coral" := coral]
  }

  const Own: Row := Row("c0", Cells(3.2, 0.25, 1.0), "Asset", Int(1), None)
  const Near1: Row := Row("c1", Cells(1.0, 0.6, 0.0), "Neighbor", Int(1), None)
  const Near2: Row := Row("c2", Cells(2.0, 0.1, 1.0), "Neighbor", Int(1), None)

  const Table: Frame := Frame(Columns, [Own, Near1, Near2])

  lemma SumOfTwo(a: real, b: real)
    ensures Sum([a, b]) == a + b
  {
    assert [a, b][..1] == [a];
    assert [a][..0] == [];
    assert Sum([a]) == a;
  }

  lemma SumOfThree(a: real, b: real, c: real)
    ensures Sum([a, b, c]) == a + b + c
  {
    assert [a, b, c][..2] == [a, b];
    SumOfTwo(a, b);
  }

  /** All three rows belong to asset 1. */
  lemma OneAsset()
    ensures RowsOf(Table.rows, Int(1)) == Table.rows
  {
    var rows := Table.rows;
    assert rows[1..] == [Near1, Near2] && rows[1..][1..] == [Near2] && [Near2][1..] == [];
    assert RowsOf([], Int(1)) == [];
    assert RowsOf([Near2], Int(1)) == [Near2];
    assert RowsOf([Near1, Near2], Int(1)) == [Near1, Near2];
  }

  /** Asset 1 is the only group; its mean Shannon index is that of all three rows. */
  lemma OneGroup()
    ensures GroupKeys(Table.rows) == [Int(1)]
    ensures GroupMean(Table, Int(1)) == 6.2 / 3.0
    ensures GroupMeans(Table) == [6.2 / 3.0]
  {
    var rows := Table.rows;
    assert rows[..2] == [Own, Near1] && rows[..2][..1] == [Own] && [Own][..0] == [];
    assert GroupKeys([Own]) == [Int(1)];
    assert GroupKeys([Own, Near1]) == [Int(1)];
    OneAsset();
    assert Column(rows, "shannon") == [3.2, 1.0, 2.0];
    SumOfThree(3.2, 1.0, 2.0);
  }

  /** Of the five ecosystems only coral is positive in the asset's own cell. */
  lemma OwnEcosystems()
    ensures Keep(ExactOrder, PositiveIn(Columns, Own)) == ["coral"]
  {
    var positive := PositiveIn(Columns, Own);
    assert "coral" in positive;
    var others := ExactOrder[..4];
    assert others == ["mangrove", "seamount", "cold_water_coral", "seagrass"];
    assert forall eco :: eco in others ==> eco !in positive;
    forall k | 0 <= k < 4
      ensures others[k] !in positive
    {
      assert others[k] !in Columns;
    }
    assert Keep(others[..1], positive) == [] by { assert others[..1][..0] == []; }
    assert Keep(others[..2], positive) == [] by { assert others[..2][..1] == others[..1]; }
    assert Keep(others[..3], positive) == [] by { assert others[..3][..2] == others[..2]; }
    assert Keep(others, positive) == [] by { assert others[..3] == others[..4][..3] && others[..4] == others; }
    assert ExactOrder[..4] == others && ExactOrder[4] == "coral";
    assert ExactOrder == others + ["coral"];
  }

  /** The rows tagged as neighbours. */
  lemma Neighbours()
    ensures Where(Table.rows, IsNeighborRow) == [Near1, Near2]
  {
    assert Lower("Asset") == "asset";
    assert Lower("Neighbor") == "neighbor";
    var rows := Table.rows;
    assert rows[1..][1..] == [Near2];
    assert Where([Near2], IsNeighborRow) == [Near2];
    assert Where([Near1, Near2], IsNeighborRow) == [Near1, Near2];
  }

  /** Coral, the only ecosystem column of the table, covers half of the neighbours. */
  lemma NeighbourCoverage()
    ensures CoverageEntries(Columns, [Near1, Near2], CoverageOrder) == [("coral", 50.0)]
  {
    var neighbors := [Near1, Near2];
    assert Column(neighbors, "coral") == [0.0, 1.0];
    SumOfTwo(0.0, 1.0);
    assert Mean([0.0, 1.0]) == 0.5;
    assert ["coral"][..0] == [];
    assert CoverageEntries(Columns, neighbors, []) == [];
    var one := CoverageEntries(Columns, neighbors, ["coral"]);
    assert one == [("coral", 50.0)];
    assert CoverageOrder[..1] == ["coral"];
    assert CoverageOrder[..2][..1] == CoverageOrder[..1];
    assert CoverageEntries(Columns, neighbors, CoverageOrder[..2]) == one;
    assert CoverageOrder[..3][..2] == CoverageOrder[..2];
    assert CoverageEntries(Columns, neighbors, CoverageOrder[..3]) == one;
    assert CoverageOrder[..4][..3] == CoverageOrder[..3];
    assert CoverageEntries(Columns, neighbors, CoverageOrder[..4]) == one;
  }

  /** The neighbours average 1.5 for Shannon and 0.35 for Simpson. */
  lemma NeighbourMeans()
    ensures Mean(Column([Near1, Near2], "shannon")) == 1.5
    ensures Mean(Column([Near1, Near2], "simpson")) == 0.35
  {
    assert Column([Near1, Near2], "shannon") == [1.0, 2.0];
    assert Column([Near1, Near2], "simpson") == [0.6, 0.1];
    SumOfTwo(1.0, 2.0);
    SumOfTwo(0.6, 0.1);
  }

  /** The asset's own cell: medium biodiversity, moderate dominance, coral. */
  lemma OwnCell()
    ensures ExactOf(Columns, Table.rows) == ExactLocation(Some(3.2), Some(0.25), ["Coral"], None)
  {
    OwnEcosystems();
    OwnRowFirst();
    CoralCapitalized();
    assert "name" !in Columns;
  }

  /** The first row is the one tagged as the asset's own cell. */
  lemma OwnRowFirst()
    ensures FirstWhere(Table.rows, IsAssetRow) == Some(0)
  {
    assert Lower("Asset") == "asset";
  }

  lemma CoralCapitalized()
    ensures Capitalized(["coral"]) == ["Coral"]
  {
    assert Capitalize("coral") == "Coral";
  }

  /** The neighbourhood: averages 1.5 and 0.35, coral covering half of it. */
  lemma Around()
    ensures SurroundingsOf(Columns, Table.rows) == Surroundings(Some(1.5), Some(0.35), Some([("coral", 50.0)]))
  {
    Neighbours();
    NeighbourCoverage();
    NeighbourMeans();
  }

  /** The only asset ranks first. */
  lemma FirstOfOne()
    ensures GroupRank(Table, Int(1)) == 1.0
  {
    OneGroup();
    var m := 6.2 / 3.0;
    assert [m][1..] == [];
    assert CountAbove([m], m) == 0;
    assert CountEqual([m], m) == 1;
  }

  /**
   * The asset ranks first of one; its own cell is medium biodiversity with
   * moderate dominance and lists coral; its neighbours average 1.5 (low) and
   * 0.35 (moderate), and half of them hold coral.
   */
  lemma SingleAssetReport()
    ensures var s := Summarize(Table, Int(1));
      && s.rank == 1.0 && s.total == 1
      && s.exact == ExactLocation(Some(3.2), Some(0.25), ["Coral"], None)
      && CategorizeShannon(s.exact.shannon) == MediumBiodiversity
      && CategorizeSimpson(s.exact.simpson) == ModerateDominance
      && s.around == Surroundings(Some(1.5), Some(0.35), Some([("coral", 50.0)]))
      && CategorizeShannon(s.around.avgShannon) == LowBiodiversity
      && CategorizeSimpson(s.around.avgSimpson) == ModerateDominance
  {
    OneAsset();
    OneGroup();
    OwnCell();
    Around();
    FirstOfOne();
  }
}
