/** The results page's logic: the fixed asset-status table, its
    case-insensitive search, the status badge colours and the tab switch. */
module ResultsDashboard {
  import JsArrays
  import JsStrings

  /** One row of the asset-status table: identifier, vessel type, value in
      USD, position, wind intensity, damage percentage and status label. */
  datatype AssetRow = AssetRow(
    id: string,
    tipo: string,
    valor: int,
    lat: real,
    lon: real,
    intensidade: string,
    dano: int,
    status: string)

  const AssetStatusData: seq<AssetRow> := [
    AssetRow("FPSO-001", "FPSO", 380000000, 25.4, -74.8, "210 km/h", 68, "Dano Severo"),
    AssetRow("DRILL-002", "Plataforma", 250000000, 24.9, -75.2, "180 km/h", 42, "Dano Moderado"),
    AssetRow("SUP-003", "Embarcação de Apoio", 45000000, 25.1, -75.5, "120 km/h", 18, "Dano Leve"),
    AssetRow("FPSO-004", "FPSO", 420000000, 24.7, -74.3, "90 km/h", 5, "Dano Mínimo"),
    AssetRow("SUP-005", "Embarcação de Apoio", 55000000, 25.8, -76.1, "110 km/h", 15, "Dano Leve"),
    AssetRow("DRILL-006", "Plataforma", 310000000, 24.5, -75.9, "150 km/h", 30, "Dano Moderado")
  ]

  /** The row ids are pairwise distinct, as their use as row keys needs. */
  lemma AssetIdsDistinct()
    ensures forall i, j :: 0 <= i < j < |AssetStatusData| ==> AssetStatusData[i].id != AssetStatusData[j].id
  {
    forall i, j | 0 <= i < j < |AssetStatusData|
      ensures AssetStatusData[i].id != AssetStatusData[j].id
    {
      // the ids differ in their length, their first or third character, or
      // their last character
      var a, b := AssetStatusData[i].id, AssetStatusData[j].id;
      assert |a| != |b| || a[0] != b[0] || a[2] != b[2] || a[|a| - 1] != b[|b| - 1];
    }
  }

  /** A row matches an already lower-cased term when its lower-cased id or
      lower-cased type contains it. */
  function RowMatches(row: AssetRow, lowerTerm: string): (b: bool)
    ensures lowerTerm == "" ==> b
    ensures b ==> |lowerTerm| <= |row.id| || |lowerTerm| <= |row.tipo|
    ensures JsStrings.IsPrefix(lowerTerm, JsStrings.Lower(row.id)) ==> b
  {
    assert lowerTerm == "" ==> JsStrings.OccursAt(JsStrings.Lower(row.id), lowerTerm, 0);
    assert JsStrings.IsPrefix(lowerTerm, JsStrings.Lower(row.id)) ==> JsStrings.OccursAt(JsStrings.Lower(row.id), lowerTerm, 0);
    JsStrings.Contains(JsStrings.Lower(row.id), lowerTerm)
    || JsStrings.Contains(JsStrings.Lower(row.tipo), lowerTerm)
  }

  /** The filter's callback for one lower-cased term: defined on every row,
      and accepting exactly the rows that match. */
  function KeepRow(lowerTerm: string): (keep: AssetRow -> bool)
    ensures forall row :: keep.requires(row) && (keep(row) <==> RowMatches(row, lowerTerm))
  {
    (row: AssetRow) => RowMatches(row, lowerTerm)
  }

  /** `filteredAssets`: the whole table for an empty term; otherwise the rows
      whose id or type contains the term, ignoring case, in table order. */
  function FilterAssets(term: string): (r: seq<AssetRow>)
    ensures term == "" ==> r == AssetStatusData
    ensures term != "" ==>
              && (forall i :: 0 <= i < |r| ==> r[i] in AssetStatusData && RowMatches(r[i], JsStrings.Lower(term)))
              && (forall i :: 0 <= i < |AssetStatusData| && RowMatches(AssetStatusData[i], JsStrings.Lower(term)) ==>
                    AssetStatusData[i] in r)
    ensures JsArrays.IsSubsequence(r, AssetStatusData)
  {
    if term == "" then
      JsArrays.SubsequenceRefl(AssetStatusData);
      AssetStatusData
    else
      JsArrays.Filter(AssetStatusData, KeepRow(JsStrings.Lower(term)))
  }

  /** The empty-term shortcut changes nothing: the empty string occurs in
      every string, so filtering with it would keep every row too. */
  lemma EmptyTermKeepsAll()
    ensures JsArrays.Filter(AssetStatusData, KeepRow(JsStrings.Lower(""))) == FilterAssets("")
  {
    var keep := KeepRow(JsStrings.Lower(""));
    assert JsStrings.Lower("") == "";
    assert forall row :: keep(row);
  }

  /** Search ignores case: terms that lower-case alike find the same rows. */
  lemma FilterIgnoresCase(t1: string, t2: string)
    requires JsStrings.Lower(t1) == JsStrings.Lower(t2)
    ensures FilterAssets(t1) == FilterAssets(t2)
  {
    JsStrings.LowerIdempotent(t1);
    JsStrings.LowerIdempotent(t2);
  }

  /** Searching for "fpso" in any case finds the two FPSO rows, in order. */
  lemma SearchFpso(term: string)
    requires JsStrings.Lower(term) == "fpso"
    ensures FilterAssets(term) == [AssetStatusData[0], AssetStatusData[3]]
  {
    FpsoRows(JsStrings.Lower(term));
    FilterPicksFirstAndFourth(AssetStatusData, KeepRow(JsStrings.Lower(term)));
  }

  /** Which rows match "fpso": the first and the fourth only. */
  lemma FpsoRows(lt: string)
    requires lt == "fpso"
    ensures RowMatches(AssetStatusData[0], lt) && RowMatches(AssetStatusData[3], lt)
    ensures !RowMatches(AssetStatusData[1], lt) && !RowMatches(AssetStatusData[2], lt)
    ensures !RowMatches(AssetStatusData[4], lt) && !RowMatches(AssetStatusData[5], lt)
  {
    RowStartsFpso(0, lt);
    RowStartsFpso(3, lt);
    RowMisses(AssetStatusData[1], 's', lt);
    RowMisses(AssetStatusData[2], 'f', lt);
    RowMisses(AssetStatusData[4], 'f', lt);
    RowMisses(AssetStatusData[5], 's', lt);
  }

  /** A drilling rig's id and type have no 's', and a support vessel's have
      no 'f', so neither row matches "fpso". */
  lemma RowMisses(row: AssetRow, c: char, lt: string)
    requires lt == "fpso"
    requires || (c == 's' && row.tipo == "Plataforma" && row.id in {"DRILL-002", "DRILL-006"})
             || (c == 'f' && row.tipo == "Embarcação de Apoio" && row.id in {"SUP-003", "SUP-005"})
    ensures !RowMatches(row, lt)
  {
    LacksLetter(row.id, c);
    LacksLetter(row.tipo, c);
    RowLacks(row, c, lt);
  }

  /** Which of the table's ids and types lack which letter, in either case. */
  lemma LacksLetter(s: string, c: char)
    requires (c == 's' && s in {"DRILL-002", "DRILL-006", "Plataforma"})
          || (c == 'f' && s in {"SUP-003", "SUP-005", "Embarcação de Apoio"})
    ensures c !in s && ((c as int - 32) as char) !in s
  {
    forall k | 0 <= k < |s| ensures s[k] != c && s[k] != ((c as int - 32) as char) { }
  }

  /** Filtering six rows of which only the first and the fourth are kept,
      one row at a time from the end. */
  lemma FilterPicksFirstAndFourth(t: seq<AssetRow>, keep: AssetRow -> bool)
    requires |t| == 6 && keep(t[0]) && keep(t[3])
    requires !keep(t[1]) && !keep(t[2]) && !keep(t[4]) && !keep(t[5])
    ensures JsArrays.Filter(t, keep) == [t[0], t[3]]
  {
    FilterStep(t, 5, keep, []);
    FilterStep(t, 4, keep, []);
    FilterStep(t, 3, keep, []);
    FilterStep(t, 2, keep, [t[3]]);
    FilterStep(t, 1, keep, [t[3]]);
    FilterStep(t, 0, keep, [t[3]]);
  }

  /** Filtering the suffix from `k` is the row at `k`, when kept, followed
      by the filtered rest. */
  lemma FilterStep(t: seq<AssetRow>, k: nat, keep: AssetRow -> bool, rest: seq<AssetRow>)
    requires k < |t| && JsArrays.Filter(t[k + 1..], keep) == rest
    ensures JsArrays.Filter(t[k..], keep) == (if keep(t[k]) then [t[k]] else []) + rest
  {
    JsArrays.FilterCons(t[k..], keep);
    assert t[k..][1..] == t[k + 1..];
  }

  /** A row whose id starts with "FPSO" matches "fpso". */
  lemma RowStartsFpso(i: nat, lt: string)
    requires lt == "fpso"
    requires i < |AssetStatusData| && |AssetStatusData[i].id| >= 4
    requires AssetStatusData[i].id[..4] == "FPSO"
    ensures RowMatches(AssetStatusData[i], lt)
  {
    var l := JsStrings.Lower(AssetStatusData[i].id);
    assert l[..4] == lt;
    assert JsStrings.OccursAt(l, lt, 0);
  }

  /** A row whose id and type both lack one of the term's letters does not
      match the term. */
  lemma RowLacks(row: AssetRow, c: char, lt: string)
    requires 'a' <= c <= 'z' && c in lt
    requires c !in row.id && c !in row.tipo
    requires ((c as int - 32) as char) !in row.id
    requires ((c as int - 32) as char) !in row.tipo
    ensures !RowMatches(row, lt)
  {
    JsStrings.LowerLacks(row.id, c);
    JsStrings.LowerLacks(row.tipo, c);
    JsStrings.MissingCharNotContained(JsStrings.Lower(row.id), lt, c);
    JsStrings.MissingCharNotContained(JsStrings.Lower(row.tipo), lt, c);
  }

  /** The result never has more rows than the table. */
  lemma FilterAssetsLength(term: string)
    ensures |FilterAssets(term)| <= |AssetStatusData|
  {
    JsArrays.SubsequenceLength(FilterAssets(term), AssetStatusData);
  }

  /** The status badge's colour family. */
  datatype BadgeColor = Red | Yellow | Lime | Green | Slate

  /** `getStatusColor`: one colour for each of the four damage labels, slate
      for anything else. */
  function StatusColor(status: string): (r: BadgeColor)
    ensures r == Red <==> status == "Dano Severo"
    ensures r == Yellow <==> status == "Dano Moderado"
    ensures r == Lime <==> status == "Dano Leve"
    ensures r == Green <==> status == "Dano Mínimo"
  {
    match status
    case "Dano Severo" => Red
    case "Dano Moderado" => Yellow
    case "Dano Leve" => Lime
    case "Dano Mínimo" => Green
    case _ => Slate
  }

  /** The four known labels */
  predicate KnownStatus(status: string) {
    status == "Dano Severo" || status == "Dano Moderado" || status == "Dano Leve" || status == "Dano Mínimo"
  }

  /** Slate is exactly the fallback; and distinct known labels never share a
      colour. */
  lemma StatusColorFallback(s1: string, s2: string)
    ensures StatusColor(s1) == Slate <==> !KnownStatus(s1)
    ensures KnownStatus(s1) && KnownStatus(s2) && s1 != s2 ==> StatusColor(s1) != StatusColor(s2)
  {
  }

  /** Every row of the table carries one of the four known labels, so no
      badge in it falls back to slate. */
  lemma TableStatusesKnown()
    ensures forall i :: 0 <= i < |AssetStatusData| ==> StatusColor(AssetStatusData[i].status) != Slate
  {
  }

  /** The three tabs of the results page. */
  datatype TabContent = Metrics | Distribution | Assets

  /** The label of each tab's button. */
  function TabLabel(t: TabContent): string {
    match t
    case Metrics => "Métricas"
    case Distribution => "Distribuição"
    case Assets => "Ativos"
  }

  /** `renderTabContent`: the tab named by the active label, the metrics tab
      for any label it does not know. */
  function RenderTabContent(activeTab: string): (r: TabContent)
    ensures r == Distribution <==> activeTab == "Distribuição"
    ensures r == Assets <==> activeTab == "Ativos"
  {
    match activeTab
    case "Métricas" => Metrics
    case "Distribuição" => Distribution
    case "Ativos" => Assets
    case _ => Metrics
  }

  /** Clicking a tab's button shows that tab, and every label that is not a
      button's shows the metrics tab. */
  lemma RenderTabContentLabels(t: TabContent, other: string)
    ensures RenderTabContent(TabLabel(t)) == t
    ensures (forall u :: TabLabel(u) != other) ==> RenderTabContent(other) == Metrics
  {
    assert TabLabel(Distribution) != TabLabel(Assets);
  }
}
