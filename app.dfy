/** The top-level dashboard: the summary statistics of the current scenario,
    the custom-asset list, scenario selection and the welcome / controls /
    main navigation. */
module App {
  import opened Wrappers
  import opened Types
  import JsArrays
  import Constants

  /** Point count, total exposed value and total expected annual impact. */
  datatype SummaryStats = SummaryStats(points: nat, totalValue: real, totalEai: real)

  function Values(fs: seq<Feature>): (r: seq<real>)
    requires AllScenarioFeatures(fs)
    ensures |r| == |fs| && forall i :: 0 <= i < |fs| ==> r[i] == fs[i].properties.value.value
  {
    seq(|fs|, i requires 0 <= i < |fs| => fs[i].properties.value.value)
  }

  function Eais(fs: seq<Feature>): (r: seq<real>)
    requires AllScenarioFeatures(fs)
    ensures |r| == |fs| && forall i :: 0 <= i < |fs| ==> r[i] == fs[i].properties.value.eai
  {
    seq(|fs|, i requires 0 <= i < |fs| => fs[i].properties.value.eai)
  }

  /** The `summaryStats` memo: zeros without data or points, otherwise the
      point count and the two totals, each a `reduce` from 0. */
  function Summarize(scenario: Scenario): (r: SummaryStats)
    ensures scenario.data.None? ==> r == SummaryStats(0, 0.0, 0.0)
    ensures scenario.data.Some? ==>
              var fs := scenario.data.value.features;
              && r.points == |fs|
              && r.totalValue == JsArrays.Sum(Values(fs))
              && r.totalEai == JsArrays.Sum(Eais(fs))
  {
    if scenario.data.None? || |scenario.data.value.features| == 0 then
      SummaryStats(0, 0.0, 0.0)
    else
      var fs := scenario.data.value.features;
      SummaryStats(|fs|, JsArrays.ReduceAdd(0.0, Values(fs)), JsArrays.ReduceAdd(0.0, Eais(fs)))
  }

  /** Adding a point to a scenario's data adds one to the count and that
      point's numbers to the totals. */
  lemma SummarizeAddPoint(s: Scenario, f: Feature)
    requires s.data.Some? && IsScenarioFeature(f)
    ensures var fc: GeoJsonData := FeatureCollection(s.data.value.features + [f]);
            var before, after := Summarize(s), Summarize(s.(data := Some(fc)));
            && after.points == before.points + 1
            && after.totalValue == before.totalValue + f.properties.value.value
            && after.totalEai == before.totalEai + f.properties.value.eai
  {
    var fs := s.data.value.features;
    assert Values(fs + [f]) == Values(fs) + [f.properties.value.value];
    assert Eais(fs + [f]) == Eais(fs) + [f.properties.value.eai];
    JsArrays.SumAppend(Values(fs), [f.properties.value.value]);
    JsArrays.SumAppend(Eais(fs), [f.properties.value.eai]);
  }

  /** For a catalog scenario: the point count is the generated count, the
      total impact is never negative, and the total value is at least the
      generator's lowest value per point. */
  lemma CatalogSummaries(rolls: seq<real>, i: nat)
    requires |rolls| >= Constants.CatalogRolls && Constants.UnitRolls(rolls) && i < 3
    ensures var st := Summarize(Constants.Scenarios(rolls)[i]);
            && st.points == [5, 10, 8][i]
            && st.totalEai >= 0.0
            && st.totalValue >= 500000.0 * st.points as real
  {
    var s := Constants.Scenarios(rolls)[i];
    var fs := s.data.value.features;
    Constants.CatalogFeaturesOk(rolls);
    JsArrays.SumAtLeast(Values(fs), 500000.0);
    JsArrays.SumAtLeast(Eais(fs), 0.0);
  }

  /** `scenarios.find(s => s.id === id)`. */
  function ScenarioById(catalog: seq<Scenario>, id: string): (r: Option<Scenario>)
    ensures r.Some? ==> r.value in catalog && r.value.id == id
    ensures r.None? <==> forall i :: 0 <= i < |catalog| ==> catalog[i].id != id
  {
    JsArrays.Find(catalog, (s: Scenario) => s.id == id)
  }

  /** With distinct ids, looking up a catalog entry's id finds that entry. */
  lemma ScenarioByIdFinds(catalog: seq<Scenario>, k: nat)
    requires k < |catalog|
    requires forall i, j :: 0 <= i < j < |catalog| ==> catalog[i].id != catalog[j].id
    ensures ScenarioById(catalog, catalog[k].id) == Some(catalog[k])
  {
    JsArrays.FindUnique(catalog, (s: Scenario) => s.id == catalog[k].id, k);
  }

  /** No two catalog entries share an id. */
  predicate DistinctIds(catalog: seq<Scenario>) {
    forall i, j :: 0 <= i < j < |catalog| ==> catalog[i].id != catalog[j].id
  }

  /** With distinct ids, a catalog entry is what its id looks up. */
  lemma ScenarioByIdMember(catalog: seq<Scenario>, s: Scenario, id: string)
    ensures DistinctIds(catalog) && s in catalog && s.id == id ==> ScenarioById(catalog, id) == Some(s)
  {
    if DistinctIds(catalog) && s in catalog && s.id == id {
      var k :| 0 <= k < |catalog| && catalog[k] == s;
      ScenarioByIdFinds(catalog, k);
    }
  }

  datatype View = Welcome | Controls | Main

  datatype MainViewTab = MapTab | ResultsTab

  /** The state `App` keeps with `useState`. */
  class AppState {
    const catalog: seq<Scenario>
    var view: View
    var mainViewTab: MainViewTab
    var selectedScenarioId: string
    var currentScenario: Scenario
    var loading: bool
    var customAssets: seq<CustomAsset>

    /** The catalog is non-empty with distinct ids, and the shown scenario
        always comes from it. */
    ghost predicate FromCatalog()
      reads this
    {
      && |catalog| > 0
      && (forall i, j :: 0 <= i < j < |catalog| ==> catalog[i].id != catalog[j].id)
      && currentScenario in catalog
    }

    /** ... and once loading is over it is the selected one. */
    ghost predicate Valid()
      reads this
    {
      FromCatalog() && (!loading ==> currentScenario.id == selectedScenarioId)
    }

    /** The summary panel's numbers for the current scenario: once loading
        is over, they are the selected catalog scenario's. */
    function Stats(): (r: SummaryStats)
      reads this
      ensures currentScenario.data.None? ==> r == SummaryStats(0, 0.0, 0.0)
      ensures currentScenario.data.Some? ==> r.points == |currentScenario.data.value.features|
      ensures Valid() && !loading ==>
                var s := ScenarioById(catalog, selectedScenarioId);
                s.Some? && r == Summarize(s.value)
    {
      ScenarioByIdMember(catalog, currentScenario, selectedScenarioId);
      Summarize(currentScenario)
    }

    /** The initial state: the welcome screen, the map tab, the first
        catalog scenario selected and shown, loading, and no custom assets. */
    constructor(rolls: seq<real>)
      requires |rolls| >= Constants.CatalogRolls
      ensures Valid()
      ensures catalog == Constants.Scenarios(rolls)
      ensures view == Welcome && mainViewTab == MapTab
      ensures selectedScenarioId == catalog[0].id && currentScenario == catalog[0]
      ensures loading && customAssets == []
    {
      Constants.CatalogIdsDistinct(rolls);
      catalog := Constants.Scenarios(rolls);
      view := Welcome;
      mainViewTab := MapTab;
      selectedScenarioId := Constants.Scenarios(rolls)[0].id;
      currentScenario := Constants.Scenarios(rolls)[0];
      loading := true;
      customAssets := [];
    }

    /** The selection effect, run as one step (the 500 ms delay completes):
        loading is raised; a found scenario is shown and loading cleared;
        an unknown id leaves the old scenario and loading stays raised. */
    method SelectionEffect()
      requires FromCatalog()
      modifies this`currentScenario, this`loading
      ensures Valid()
      ensures match ScenarioById(catalog, selectedScenarioId)
              case Some(s) => currentScenario == s && !loading
              case None => currentScenario == old(currentScenario) && loading
    {
      loading := true;
      var newScenario := ScenarioById(catalog, selectedScenarioId);
      if newScenario.Some? {
        currentScenario := newScenario.value;
        loading := false;
      }
    }

    /** The first run of the selection effect, after the initial render. */
    method Mount()
      requires Valid()
      requires selectedScenarioId == catalog[0].id
      modifies this`currentScenario, this`loading
      ensures Valid() && currentScenario == catalog[0] && !loading
    {
      ScenarioByIdFinds(catalog, 0);
      SelectionEffect();
    }

    /** `onScenarioChange`: store the id; when it differs from the current
        one, the selection effect runs. */
    method SelectScenario(id: string)
      requires Valid()
      modifies this`selectedScenarioId, this`currentScenario, this`loading
      ensures Valid() && selectedScenarioId == id
      ensures id == old(selectedScenarioId) ==>
                currentScenario == old(currentScenario) && loading == old(loading)
      ensures id != old(selectedScenarioId) ==>
                match ScenarioById(catalog, id)
                case Some(s) => currentScenario == s && !loading
                case None => currentScenario == old(currentScenario) && loading
    {
      if id != selectedScenarioId {
        selectedScenarioId := id;
        SelectionEffect();
      }
    }

    /** `handleAddAsset`: append at the end. */
    method HandleAddAsset(asset: CustomAsset)
      modifies this`customAssets
      ensures customAssets == old(customAssets) + [asset]
    {
      customAssets := customAssets + [asset];
    }

    /** `handleRemoveAsset`: keep the assets whose id differs, in order. */
    method HandleRemoveAsset(id: int)
      modifies this`customAssets
      ensures customAssets == RemoveById(old(customAssets), id)
    {
      customAssets := RemoveById(customAssets, id);
    }

    /** `handleStart`: from the welcome screen to the controls. */
    method HandleStart()
      modifies this`view
      ensures view == Controls
    {
      view := Controls;
    }

    /** `handleNavigateToMap`. */
    method HandleNavigateToMap()
      modifies this`view, this`mainViewTab
      ensures view == Main && mainViewTab == MapTab
    {
      view := Main;
      mainViewTab := MapTab;
    }

    /** `handleNavigateToResults`. */
    method HandleNavigateToResults()
      modifies this`view, this`mainViewTab
      ensures view == Main && mainViewTab == ResultsTab
    {
      view := Main;
      mainViewTab := ResultsTab;
    }

    /** `handleBackToControls`, the header's menu button. */
    method HandleBackToControls()
      modifies this`view
      ensures view == Controls
    {
      view := Controls;
    }

    /** A click on one of the main view's two tab buttons. */
    method SelectTab(tab: MainViewTab)
      modifies this`mainViewTab
      ensures mainViewTab == tab
    {
      mainViewTab := tab;
    }
  }
}
