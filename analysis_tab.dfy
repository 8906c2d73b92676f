/**
 * The pure pieces of the analysis tab: the required-column check, the
 * ranked select-box labels and how the selected id is read back from a
 * label, and the text of the "download all reports" file.
 */
module AnalysisTab {
  import opened Wrappers
  import opened Strings
  import opened Values
  import opened NeighborhoodQuery
  import opened Ranking
  import opened Biodiversity

  const RequiredColumns: seq<string> := ["shannon", "simpson"]

  const MissingPrefix: string := "Missing required columns in dataset: "

  const IdMarker: string := "Asset ID: "

  // ---------------------------------------------------------------------
  // The required-column check

  /** `[col for col in required_cols if col not in df.columns]`. */
  function MissingColumns(columns: set<string>): (missing: seq<string>)
    ensures forall c :: c in missing <==> c in RequiredColumns && c !in columns
    ensures missing == [] <==> "shannon" in columns && "simpson" in columns
    ensures |missing| == 2 ==> missing == RequiredColumns
  {
    (if "shannon" in columns then [] else ["shannon"]) + (if "simpson" in columns then [] else ["simpson"])
  }

  /** What the tab shows: nothing to analyse yet, the missing-column error, or the reports. */
  datatype TabView = NoResults | MissingRequired(message: string) | Ready(reports: seq<AssetReport>)

  /**
   * The analysis tab up to the display choice: reports are generated only
   * when both index columns are present; their ids are distinct keys, and
   * the ranked view lists them in the order they were generated.
   */
  method AnalyzeResults(results: Option<Frame>, radiusKm: nat, fmt: Formats) returns (view: TabView)
    requires results.Some? ==> Filled(results.value.columns, results.value.rows)
    ensures view.NoResults? <==> results.None?
    ensures view.MissingRequired? <==> results.Some? && MissingColumns(results.value.columns) != []
    ensures view.MissingRequired? ==>
      view.message == MissingPrefix + Join(MissingColumns(results.value.columns), ", ")
    ensures view.Ready? ==>
      && ReportIds(view.reports) == SortedIds(results.value)
      && (forall k :: 0 <= k < |view.reports| ==>
            view.reports[k] == EntryFor(results.value, view.reports[k].assetId, radiusKm, fmt))
      && Distinct(ReportIds(view.reports))
      && SortByRank(view.reports) == view.reports
  {
    if results.None? {
      return NoResults;
    }
    var df := results.value;
    var missing := MissingColumns(df.columns);
    if missing != [] {
      return MissingRequired(MissingPrefix + Join(missing, ", "));
    }
    var reports := GenerateAssetReport(df, radiusKm, fmt);
    SortedIdsDistinct(df);
    RankedViewKeepsReportOrder(df, reports);
    view := Ready(reports);
  }

  // ---------------------------------------------------------------------
  // The "Ranked by Biodiversity" view

  predicate RankAscending(s: seq<AssetReport>)
  {
    forall i, j :: 0 <= i < j < |s| ==> s[i].rank <= s[j].rank
  }

  /** Inserts `e` before the first entry whose rank is not smaller, keeping ties in order. */
  function InsertByRank(e: AssetReport, s: seq<AssetReport>): seq<AssetReport>
  {
    if s == [] then [e]
    else if e.rank <= s[0].rank then [e] + s
    else [s[0]] + InsertByRank(e, s[1..])
  }

  /** `sorted(asset_reports.items(), key=rank)`: Python's sort is stable. */
  function SortByRank(s: seq<AssetReport>): seq<AssetReport>
  {
    if s == [] then [] else InsertByRank(s[0], SortByRank(s[1..]))
  }

  lemma {:induction false} InsertByRankElements(e: AssetReport, s: seq<AssetReport>)
    ensures multiset(InsertByRank(e, s)) == multiset(s) + multiset{e}
  {
    if s != [] && e.rank > s[0].rank {
      InsertByRankElements(e, s[1..]);
      assert s == [s[0]] + s[1..];
    }
  }

  lemma {:induction false} InsertByRankSorted(e: AssetReport, s: seq<AssetReport>)
    requires RankAscending(s)
    ensures RankAscending(InsertByRank(e, s))
  {
    if s != [] && e.rank > s[0].rank {
      var t := InsertByRank(e, s[1..]);
      InsertByRankSorted(e, s[1..]);
      InsertByRankElements(e, s[1..]);
      forall j | 0 <= j < |t|
        ensures s[0].rank <= t[j].rank
      {
        assert t[j] in multiset(t);
        if t[j] != e {
          assert t[j] in s[1..];
        }
      }
    }
  }

  /** The ranked view lists every entry once, in ascending rank. */
  lemma {:induction false} SortByRankCorrect(s: seq<AssetReport>)
    ensures RankAscending(SortByRank(s))
    ensures multiset(SortByRank(s)) == multiset(s)
  {
    if s != [] {
      SortByRankCorrect(s[1..]);
      InsertByRankSorted(s[0], SortByRank(s[1..]));
      InsertByRankElements(s[0], SortByRank(s[1..]));
      assert s == [s[0]] + s[1..];
    }
  }

  /** A list already in ascending rank is left exactly as it is. */
  lemma {:induction false} SortByRankKeepsSorted(s: seq<AssetReport>)
    requires RankAscending(s)
    ensures SortByRank(s) == s
  {
    if s != [] {
      SortByRankKeepsSorted(s[1..]);
      assert s == [s[0]] + s[1..];
    }
  }

  /** The sorted ids are in ascending rank: a larger mean never has a worse rank. */
  lemma SortedIdsRankAscending(df: Frame)
    ensures var ids := SortedIds(df);
      forall i, j :: 0 <= i < j < |ids| ==> GroupRank(df, ids[i]) <= GroupRank(df, ids[j])
  {
    var ids := SortedIds(df);
    SortedIdsCorrect(df);
    forall i, j | 0 <= i < j < |ids|
      ensures GroupRank(df, ids[i]) <= GroupRank(df, ids[j])
    {
      GroupRankMonotone(df, ids[i], ids[j]);
    }
  }

  /**
   * Entries in the sorted id order that carry their group's rank, as
   * `generate_asset_report` returns them, are in ascending rank, so the
   * ranked view lists them in the order the reports were generated.
   */
  lemma RankedViewKeepsReportOrder(df: Frame, reports: seq<AssetReport>)
    requires ReportIds(reports) == SortedIds(df)
    requires forall k :: 0 <= k < |reports| ==> reports[k].rank == GroupRank(df, reports[k].assetId)
    ensures RankAscending(reports)
    ensures SortByRank(reports) == reports
  {
    var ids := SortedIds(df);
    SortedIdsRankAscending(df);
    forall i, j | 0 <= i < j < |reports|
      ensures reports[i].rank <= reports[j].rank
    {
      assert reports[i].assetId == ids[i] && reports[j].assetId == ids[j];
    }
    SortByRankKeepsSorted(reports);
  }

  function NameSuffix(name: Option<Value>, fmt: Formats): string
  {
    match name
    case None => ""
    case Some(v) => " (" + Show(v, fmt) + ")"
  }

  /** `f"#{int(rank)} - Asset ID: {asset_id}"`, with ` (name)` when the asset has a name. */
  function OptionLabel(e: AssetReport, fmt: Formats): string
  {
    "#" + IntToString(e.rank.Floor) + " - " + IdMarker + Show(e.assetId, fmt) + NameSuffix(e.name, fmt)
  }

  /** The select-box options of the ranked view. */
  function RankedOptions(reports: seq<AssetReport>, fmt: Formats): (options: seq<string>)
    ensures |options| == |reports|
  {
    var sorted := SortByRank(reports);
    SortByRankCorrect(reports);
    assert |sorted| == |multiset(sorted)| == |multiset(reports)| == |reports|;
    seq(|sorted|, i requires 0 <= i < |sorted| => OptionLabel(sorted[i], fmt))
  }

  // ---------------------------------------------------------------------
  // Reading the selected id back

  /**
   * `int(selected_option.split("Asset ID: ")[1].split(" ")[0])`; None where
   * Python raises (no marker, or text that is not an integer).
   */
  function ParseSelectedId(option: string): Option<int>
  {
    match SecondPiece(option, IdMarker)
    case None => None
    case Some(piece) => ParseInt(TakeUntil(piece, " "))
  }

  /** A text made of a name suffix holds nothing before its first space. */
  lemma SuffixHidesNothing(suffix: string, name: Option<Value>, fmt: Formats)
    requires suffix == NameSuffix(name, fmt)
    ensures TakeUntil(TakeUntil(suffix, IdMarker), " ") == ""
  {
    var cut := TakeUntil(suffix, IdMarker);
    TakeUntilIsPrefix(suffix, IdMarker);
    if cut != [] {
      assert cut[0] == ' ';
      IndexOfAtStart(" ", cut[1..]);
      assert cut == " " + cut[1..];
    }
  }

  /** No character of `str(i)` can start the marker or end the id. */
  lemma IntTextAvoids(i: int)
    ensures forall k :: 0 <= k < |IntToString(i)| ==> IntToString(i)[k] != IdMarker[0] && IntToString(i)[k] != " "[0]
  {
    IntToStringChars(i);
  }

  /** Text before the marker that cannot start it: the second piece is what follows the marker. */
  lemma PieceAfterMarker(head: string, rest: string)
    requires forall k :: 0 <= k < |head| ==> head[k] != IdMarker[0]
    ensures SecondPiece(head + (IdMarker + rest), IdMarker) == Some(TakeUntil(rest, IdMarker))
  {
    IndexOfSkips(head, IdMarker + rest, IdMarker);
    IndexOfAtStart(IdMarker, rest);
    assert (head + (IdMarker + rest))[|head| + |IdMarker|..] == rest;
  }

  /** `str(i)` followed by a name suffix: the first word of its first piece is `str(i)`. */
  lemma IdWord(i: int, name: Option<Value>, fmt: Formats)
    ensures TakeUntil(TakeUntil(IntToString(i) + NameSuffix(name, fmt), IdMarker), " ") == IntToString(i)
  {
    var id := IntToString(i);
    var suffix := NameSuffix(name, fmt);
    IntTextAvoids(i);
    TakeUntilSkips(id, suffix, IdMarker);
    TakeUntilSkips(id, TakeUntil(suffix, IdMarker), " ");
    SuffixHidesNothing(suffix, name, fmt);
    assert id + "" == id;
  }

  /** The head of a ranked label, `#<rank> - `, cannot start the marker. */
  lemma HeadAvoidsMarker(rank: real)
    ensures var head := "#" + IntToString(rank.Floor) + " - ";
      forall k :: 0 <= k < |head| ==> head[k] != IdMarker[0]
  {
    IntTextAvoids(rank.Floor);
  }

  /** For an integer id the label reads back as that id, whatever the rank and the name. */
  lemma LabelRoundTrip(e: AssetReport, fmt: Formats)
    requires e.assetId.Int?
    ensures ParseSelectedId(OptionLabel(e, fmt)) == Some(e.assetId.i)
  {
    var head := "#" + IntToString(e.rank.Floor) + " - ";
    var id := IntToString(e.assetId.i);
    var suffix := NameSuffix(e.name, fmt);
    assert OptionLabel(e, fmt) == head + (IdMarker + (id + suffix));
    HeadAvoidsMarker(e.rank);
    PieceAfterMarker(head, id + suffix);
    IdWord(e.assetId.i, e.name, fmt);
    IntToStringRoundTrip(e.assetId.i);
  }

  /** `asset_reports[id]`: the entry with that id; None where Python raises KeyError. */
  function Lookup(entries: seq<AssetReport>, id: Value): (r: Option<AssetReport>)
    ensures r.Some? ==> r.value in entries && r.value.assetId == id
    ensures r.None? <==> forall k :: 0 <= k < |entries| ==> entries[k].assetId != id
  {
    if entries == [] then None
    else if entries[0].assetId == id then Some(entries[0])
    else Lookup(entries[1..], id)
  }

  /** With distinct ids, the lookup of an entry's id finds that entry. */
  lemma {:induction false} LookupFinds(entries: seq<AssetReport>, k: nat)
    requires Distinct(ReportIds(entries))
    requires k < |entries|
    ensures Lookup(entries, entries[k].assetId) == Some(entries[k])
  {
    if k > 0 {
      assert ReportIds(entries)[0] != ReportIds(entries)[k];
      assert Distinct(ReportIds(entries[1..])) by {
        forall i, j | 0 <= i < j < |entries| - 1
          ensures ReportIds(entries[1..])[i] != ReportIds(entries[1..])[j]
        {
          assert ReportIds(entries)[i + 1] != ReportIds(entries)[j + 1];
        }
      }
      LookupFinds(entries[1..], k - 1);
    }
  }

  /** The report the ranked view shows for a label, as written: parse the id, then look it up. */
  function ShownReportAsWritten(entries: seq<AssetReport>, option: string): Option<string>
  {
    match ParseSelectedId(option)
    case None => None
    case Some(i) =>
      match Lookup(entries, Int(i))
      case None => None
      case Some(e) => Some(e.report)
  }

  /** For integer ids, selecting an entry's label shows that entry's report. */
  lemma ShownReportForIntIds(entries: seq<AssetReport>, k: nat, fmt: Formats)
    requires Distinct(ReportIds(entries))
    requires k < |entries| && entries[k].assetId.Int?
    ensures ShownReportAsWritten(entries, OptionLabel(entries[k], fmt)) == Some(entries[k].report)
  {
    LabelRoundTrip(entries[k], fmt);
    LookupFinds(entries, k);
  }

  /**
   * The ranked view from start to finish, for distinct integer ids: choosing
   * the option at position `k` of the select box shows the report of the
   * entry at position `k` of the rank-sorted list.
   */
  lemma RankedViewShowsSelected(reports: seq<AssetReport>, k: nat, fmt: Formats)
    requires Distinct(ReportIds(reports))
    requires forall j :: 0 <= j < |reports| ==> reports[j].assetId.Int?
    requires k < |reports|
    ensures |SortByRank(reports)| == |reports|
    ensures ShownReportAsWritten(reports, RankedOptions(reports, fmt)[k]) == Some(SortByRank(reports)[k].report)
  {
    var sorted := SortByRank(reports);
    SortByRankCorrect(reports);
    assert |sorted| == |multiset(sorted)| == |multiset(reports)| == |reports|;
    assert sorted[k] in multiset(reports);
    var m :| 0 <= m < |reports| && reports[m] == sorted[k];
    ShownReportForIntIds(reports, m, fmt);
  }

  /** An asset whose id is text: its label does not read back, so its report is never shown. */
  lemma TextIdNotShown(fmt: Formats)
    ensures var e := AssetReport(Text("H7"), "", 1.0, None);
      ShownReportAsWritten([e], OptionLabel(e, fmt)) == None
  {
    var e := AssetReport(Text("H7"), "", 1.0, None);
    var head := "#1 - ";
    assert IntToString(1) == "1";
    assert OptionLabel(e, fmt) == head + (IdMarker + "H7");
    PieceAfterMarker(head, "H7");
    TakeUntilSkips("H7", "", IdMarker);
    TakeUntilSkips("H7", "", " ");
    assert !IsDigit('H');
  }

  /**
   * The selection as intended: the option at position `k` of the ranked
   * list shows the report of the entry at that position, whatever its id.
   */
  function ShownReport(entries: seq<AssetReport>, k: nat): string
    requires k < |entries|
  {
    entries[k].report
  }

  /** The intended selection shows the dictionary's report for the selected asset, for every id. */
  lemma ShownReportIsSelected(entries: seq<AssetReport>, k: nat)
    requires Distinct(ReportIds(entries))
    requires k < |entries|
    ensures Lookup(entries, entries[k].assetId).Some?
    ensures ShownReport(entries, k) == Lookup(entries, entries[k].assetId).value.report
  {
    LookupFinds(entries, k);
  }

  // ---------------------------------------------------------------------
  // The download file

  function Dashes(n: nat): (s: string)
    ensures |s| == n
    ensures forall k :: 0 <= k < n ==> s[k] == '-'
  {
    if n == 0 then "" else Dashes(n - 1) + "-"
  }

  function ReportTexts(entries: seq<AssetReport>): (texts: seq<string>)
    ensures |texts| == |entries|
  {
    seq(|entries|, i requires 0 <= i < |entries| => entries[i].report)
  }

  /**
   * `"\n\n" + "-"*80 + "\n\n".join(reports)`: `join` binds to the literal,
   * so the rule comes once, before all reports, which are separated by a
   * blank line.
   */
  function AllReports(entries: seq<AssetReport>): string
  {
    "\n\n" + Dashes(80) + Join(ReportTexts(entries), "\n\n")
  }

  /** The file opens with two newlines and the 80-dash rule, then the first report. */
  lemma AllReportsStart(entries: seq<AssetReport>)
    ensures var text := AllReports(entries);
      && |text| >= 82
      && text[..2] == "\n\n"
      && (forall k :: 2 <= k < 82 ==> text[k] == '-')
      && (|entries| > 0 ==> text[82..82 + |entries[0].report|] == entries[0].report)
  {
    var texts := ReportTexts(entries);
    var text := AllReports(entries);
    if |entries| > 0 {
      if |entries| > 1 {
        assert Join(texts, "\n\n") == texts[0] + ("\n\n" + Join(texts[1..], "\n\n"));
      }
      assert Join(texts, "\n\n")[..|texts[0]|] == texts[0];
    }
  }

  /** The file holds every report, one rule and one blank line between consecutive reports, nothing more. */
  lemma AllReportsLength(entries: seq<AssetReport>)
    requires |entries| > 0
    ensures |AllReports(entries)| == 82 + TotalLength(ReportTexts(entries)) + 2 * (|entries| - 1)
  {
    JoinLength(ReportTexts(entries), "\n\n");
  }

  /**
   * The loop over the entries: adding one more report to a non-empty
   * dictionary appends a blank line and that report, and changes nothing
   * before it.
   */
  lemma AllReportsSnoc(entries: seq<AssetReport>, e: AssetReport)
    requires |entries| > 0
    ensures AllReports(entries + [e]) == AllReports(entries) + "\n\n" + e.report
  {
    assert ReportTexts(entries + [e]) == ReportTexts(entries) + [e.report];
    JoinSnoc(ReportTexts(entries), e.report, "\n\n");
  }
}
