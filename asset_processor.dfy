/**
 * Normalisation of an uploaded asset table (`load_and_process_asset_data`):
 * case-insensitive synonym resolution of the latitude, longitude, id and
 * name columns, synthesised ids, and the H3 cell and ring neighbourhood of
 * every asset.
 */
module AssetProcessor {
  import opened Wrappers
  import opened Strings
  import opened Values

  const LatSynonyms: set<string> := {"latitude", "lat"}
  const LonSynonyms: set<string> := {"longitude", "long", "lon"}
  const IdSynonyms: set<string> := {"asset_id", "id", "assetid"}
  const NameSynonyms: set<string> := {"name", "asset_name", "title", "label"}

  /** The H3 resolution used for assets and for the dataset's `hex6` column. */
  const Resolution: nat := 6

  /** A table as read from the uploaded file: a header and rows of cells. */
  datatype RawTable = RawTable(header: seq<string>, rows: seq<seq<Value>>)

  /**
   * The two functions of the h3 library the application calls, left
   * uninterpreted: `latlng_to_cell(lat, lng, res)`, None where it raises
   * (a NaN or text coordinate, say), and `grid_disk(cell, k)`.
   */
  datatype H3 = H3(latLngToCell: (Value, Value, nat) -> Option<string>, gridDisk: (string, nat) -> seq<string>)

  /** The column positions resolved once from the lower-cased header. */
  datatype Schema = Schema(lat: nat, lon: nat, id: Option<nat>, name: Option<nat>)

  /** One row of the processed table. `name` is present exactly when the table has a name column. */
  datatype Asset = Asset(assetId: Value, lat: Value, lon: Value, h3Index: string, h3Neighbors: seq<string>, name: Option<Value>)

  datatype AssetTable = AssetTable(hasName: bool, assets: seq<Asset>)

  /**
   * How the load ends: the "must contain 'latitude' and 'longitude'" error
   * (None returned), the exception `latlng_to_cell` raised on the first row
   * it could not place (it escapes the function), or the processed table.
   */
  datatype LoadOutcome = ColumnsMissing | CellRaised(row: nat) | Loaded(table: AssetTable)

  /** The cell in column `j`; pandas fills a short row with NaN. */
  function CellAt(row: seq<Value>, j: nat): Value
  {
    if j < |row| then row[j] else Missing
  }

  /** `df.columns.str.lower()`. */
  function LowerHeader(header: seq<string>): seq<string>
  {
    seq(|header|, j requires 0 <= j < |header| => Lower(header[j]))
  }

  /** Every synonym is written in lower case. */
  lemma SynonymsLowerCase()
    ensures forall n :: n in LatSynonyms + LonSynonyms + IdSynonyms + NameSynonyms ==> NoUpper(n)
  {
  }

  /** `h` spells one of `names` in some mix of letter cases. */
  ghost predicate MatchesSome(h: string, names: set<string>)
  {
    exists n :: n in names && EqualIgnoringCase(h, n)
  }

  /**
   * What line 144 is for: a lower-cased header, which holds no upper-case
   * letter, is one of the lower-case `names` exactly when the original
   * header spells that name in any mix of cases.
   */
  lemma HeaderMatchesIgnoringCase(header: seq<string>, j: nat, names: set<string>)
    requires j < |header|
    requires forall n :: n in names ==> NoUpper(n)
    ensures NoUpper(LowerHeader(header)[j])
    ensures LowerHeader(header)[j] in names <==> MatchesSome(header[j], names)
  {
    LowerMatchesIgnoringCase(header[j], "");
    forall n | n in names
      ensures LowerHeader(header)[j] == n <==> EqualIgnoringCase(header[j], n)
    {
      LowerMatchesIgnoringCase(header[j], n);
    }
  }

  /**
   * `next((col for col in cols if col in names), None)`, as a position:
   * the first column, in the table's own order, that is one of `names`.
   */
  function FirstIn(cols: seq<string>, names: set<string>): (r: Option<nat>)
    ensures r.Some? ==> r.value < |cols| && cols[r.value] in names
    ensures r.Some? ==> forall j :: 0 <= j < r.value ==> cols[j] !in names
    ensures r.None? <==> forall j :: 0 <= j < |cols| ==> cols[j] !in names
  {
    if cols == [] then None
    else if cols[0] in names then Some(0)
    else
      match FirstIn(cols[1..], names)
      case None => None
      case Some(j) => Some(j + 1)
  }

  /**
   * Role resolution is case-insensitive: the column chosen for a role is the
   * first whose original header spells one of its synonyms in any mix of
   * cases, and none is chosen exactly when no header does.
   */
  lemma FirstInIgnoresCase(header: seq<string>, names: set<string>)
    requires forall n :: n in names ==> NoUpper(n)
    ensures var r := FirstIn(LowerHeader(header), names);
      && (r.Some? ==> r.value < |header| && MatchesSome(header[r.value], names))
      && (r.Some? ==> forall j :: 0 <= j < r.value ==> !MatchesSome(header[j], names))
      && (r.None? <==> forall j :: 0 <= j < |header| ==> !MatchesSome(header[j], names))
  {
    forall j | 0 <= j < |header|
      ensures LowerHeader(header)[j] in names <==> MatchesSome(header[j], names)
    {
      HeaderMatchesIgnoringCase(header, j, names);
    }
  }

  /**
   * Resolves the four roles against the lower-cased header. Fails exactly
   * when no latitude or no longitude column resolves.
   */
  function ResolveSchema(cols: seq<string>): (r: Option<Schema>)
    ensures r.None? <==> FirstIn(cols, LatSynonyms).None? || FirstIn(cols, LonSynonyms).None?
    ensures r.Some? ==>
      && Some(r.value.lat) == FirstIn(cols, LatSynonyms)
      && Some(r.value.lon) == FirstIn(cols, LonSynonyms)
      && r.value.id == FirstIn(cols, IdSynonyms)
      && r.value.name == FirstIn(cols, NameSynonyms)
  {
    match (FirstIn(cols, LatSynonyms), FirstIn(cols, LonSynonyms))
    case (Some(lat), Some(lon)) => Some(Schema(lat, lon, FirstIn(cols, IdSynonyms), FirstIn(cols, NameSynonyms)))
    case _ => None
  }

  /**
   * `pos` is where role resolution lands when headers are compared ignoring
   * case: the first header spelling one of `names`, or None when none does.
   */
  ghost predicate ResolvedIgnoringCase(header: seq<string>, names: set<string>, pos: Option<nat>)
  {
    match pos
    case Some(j) =>
      && j < |header| && MatchesSome(header[j], names)
      && forall i :: 0 <= i < j ==> !MatchesSome(header[i], names)
    case None => forall i :: 0 <= i < |header| ==> !MatchesSome(header[i], names)
  }

  /**
   * Lines 144-161 together: each of the four roles resolves to the first
   * header that spells one of its synonyms in any mix of cases, and the
   * schema is missing exactly when latitude or longitude finds no such
   * header.
   */
  lemma ResolveSchemaIgnoresCase(header: seq<string>)
    ensures var r := ResolveSchema(LowerHeader(header));
      && (r.None? <==> ResolvedIgnoringCase(header, LatSynonyms, None) || ResolvedIgnoringCase(header, LonSynonyms, None))
      && (r.Some? ==>
        && ResolvedIgnoringCase(header, LatSynonyms, Some(r.value.lat))
        && ResolvedIgnoringCase(header, LonSynonyms, Some(r.value.lon))
        && ResolvedIgnoringCase(header, IdSynonyms, r.value.id)
        && ResolvedIgnoringCase(header, NameSynonyms, r.value.name))
  {
    SynonymsLowerCase();
    FirstInIgnoresCase(header, LatSynonyms);
    FirstInIgnoresCase(header, LonSynonyms);
    FirstInIgnoresCase(header, IdSynonyms);
    FirstInIgnoresCase(header, NameSynonyms);
  }

  /**
   * `round(distance_km / 8.74)`. For a whole number of kilometres the
   * quotient is never exactly halfway between two integers, so rounding to
   * nearest is floor((100 d + 437) / 874).
   */
  function RingCount(distanceKm: nat): nat
  {
    (100 * distanceKm + 437) / 874
  }

  /** The ring count is the integer nearest to d / 8.74, strictly closer than one half. */
  lemma RingCountIsNearest(distanceKm: nat)
    ensures -437 < 100 * distanceKm - 874 * RingCount(distanceKm) < 437
  {
    var n := 100 * distanceKm + 437;
    var r := RingCount(distanceKm);
    assert 874 * r <= n < 874 * r + 874;
    // 100 d is even and 874 r - 437 is odd, so they differ.
    assert 100 * distanceKm == 2 * (50 * distanceKm);
    assert 874 * r - 437 == 2 * (437 * r - 219) + 1;
  }

  /** No other integer is as close to d / 8.74: the ring count is the rounding. */
  lemma RingCountUnique(distanceKm: nat, k: int)
    requires -437 < 100 * distanceKm - 874 * k < 437
    ensures k == RingCount(distanceKm)
  {
    RingCountIsNearest(distanceKm);
  }

  /** A larger radius never yields fewer rings. */
  lemma RingCountMonotone(d1: nat, d2: nat)
    requires d1 <= d2
    ensures RingCount(d1) <= RingCount(d2)
  {
  }

  /** Line 169 for input row `i`: its H3 cell, or None where h3 raises. */
  function CellOf(table: RawTable, schema: Schema, h3: H3, i: nat): Option<string>
    requires i < |table.rows|
  {
    h3.latLngToCell(CellAt(table.rows[i], schema.lat), CellAt(table.rows[i], schema.lon), Resolution)
  }

  /** The processed row for input row `i`, once its cell is known. */
  function ProcessRow(table: RawTable, schema: Schema, distanceKm: nat, h3: H3, i: nat): Asset
    requires i < |table.rows| && CellOf(table, schema, h3, i).Some?
  {
    var row := table.rows[i];
    var lat := CellAt(row, schema.lat);
    var lon := CellAt(row, schema.lon);
    var cell := CellOf(table, schema, h3, i).value;
    Asset(
      if schema.id.Some? then CellAt(row, schema.id.value) else Int(i + 1),
      lat, lon, cell, h3.gridDisk(cell, RingCount(distanceKm)),
      if schema.name.Some? then Some(CellAt(row, schema.name.value)) else None)
  }

  /**
   * `load_and_process_asset_data` after the file has been read: the
   * missing-coordinates error, the exception of the first row h3 cannot
   * place, or one processed asset per row. `idsSynthesised` is the
   * "No asset ID column found" warning, which comes before any h3 call.
   */
  method LoadAndProcessAssetData(table: RawTable, distanceKm: nat, h3: H3)
    returns (result: LoadOutcome, idsSynthesised: bool)
    ensures var cols := LowerHeader(table.header);
      result.ColumnsMissing? <==> FirstIn(cols, LatSynonyms).None? || FirstIn(cols, LonSynonyms).None?
    ensures var cols := LowerHeader(table.header);
      idsSynthesised <==> !result.ColumnsMissing? && FirstIn(cols, IdSynonyms).None?
    ensures result.CellRaised? ==>
      var resolved := ResolveSchema(LowerHeader(table.header));
      && resolved.Some?
      && result.row < |table.rows|
      && CellOf(table, resolved.value, h3, result.row).None?
      && forall k :: 0 <= k < result.row ==> CellOf(table, resolved.value, h3, k).Some?
    ensures result.Loaded? ==>
      var cols := LowerHeader(table.header);
      var lat, lon := FirstIn(cols, LatSynonyms).value, FirstIn(cols, LonSynonyms).value;
      var id, name := FirstIn(cols, IdSynonyms), FirstIn(cols, NameSynonyms);
      var assets := result.table.assets;
      && result.table.hasName == name.Some?
      && |assets| == |table.rows|
      && forall i :: 0 <= i < |table.rows| ==>
        && assets[i].lat == CellAt(table.rows[i], lat)
        && assets[i].lon == CellAt(table.rows[i], lon)
        && assets[i].assetId == (if id.Some? then CellAt(table.rows[i], id.value) else Int(i + 1))
        && assets[i].name == (if name.Some? then Some(CellAt(table.rows[i], name.value)) else None)
        && h3.latLngToCell(assets[i].lat, assets[i].lon, Resolution) == Some(assets[i].h3Index)
        && assets[i].h3Neighbors == h3.gridDisk(assets[i].h3Index, RingCount(distanceKm))
  {
    var cols := LowerHeader(table.header);
    var resolved := ResolveSchema(cols);
    if resolved.None? {
      return ColumnsMissing, false;
    }
    var schema := resolved.value;
    assert schema.lat == FirstIn(cols, LatSynonyms).value && schema.lon == FirstIn(cols, LonSynonyms).value;
    assert schema.id == FirstIn(cols, IdSynonyms) && schema.name == FirstIn(cols, NameSynonyms);
    idsSynthesised := schema.id.None?;
    var assets: seq<Asset> := [];
    var i := 0;
    while i < |table.rows|
      invariant 0 <= i <= |table.rows|
      invariant |assets| == i
      invariant forall k :: 0 <= k < i ==>
        CellOf(table, schema, h3, k).Some? && assets[k] == ProcessRow(table, schema, distanceKm, h3, k)
    {
      if CellOf(table, schema, h3, i).None? {
        return CellRaised(i), idsSynthesised;
      }
      assets := assets + [ProcessRow(table, schema, distanceKm, h3, i)];
      i := i + 1;
    }
    forall k | 0 <= k < |table.rows|
      ensures h3.latLngToCell(assets[k].lat, assets[k].lon, Resolution) == Some(assets[k].h3Index)
      ensures assets[k].h3Neighbors == h3.gridDisk(assets[k].h3Index, RingCount(distanceKm))
    {
      assert assets[k] == ProcessRow(table, schema, distanceKm, h3, k);
    }
    result := Loaded(AssetTable(schema.name.Some?, assets));
  }
}
