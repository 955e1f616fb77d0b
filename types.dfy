/** The record shapes of the dashboard: scenarios, their GeoJSON point data
    and the user's custom assets. */
module Types {
  import opened Wrappers
  import JsArrays

  /** A map location written `[lat, lng]`, as scenario centres are. */
  datatype LatLng = LatLng(lat: real, lng: real)

  /** The per-point numbers of a scenario: exposed value and expected annual
      impact. */
  datatype ScenarioProperties = ScenarioProperties(value: real, eai: real)

  /** A GeoJSON position: at least two numbers, longitude first, then
      latitude (section 3.1.1 of RFC 7946). */
  type Position = p: seq<real> | |p| >= 2 witness [0.0, 0.0]

  datatype Geometry = Point(coordinates: Position) | OtherGeometry(kind: string)

  /** A GeoJSON feature as it reaches the map layer; `properties` may be
      `null`. */
  datatype Feature = Feature(properties: Option<ScenarioProperties>, geometry: Geometry)

  datatype FeatureCollection = FeatureCollection(features: seq<Feature>)

  /** The shape `Feature<Point, ScenarioProperties>` declares. */
  predicate IsScenarioFeature(f: Feature) {
    f.properties.Some? && f.geometry.Point?
  }

  predicate AllScenarioFeatures(fs: seq<Feature>) {
    forall i :: 0 <= i < |fs| ==> IsScenarioFeature(fs[i])
  }

  /** `GeoJsonData`: a point collection whose every feature carries
      scenario properties. */
  type GeoJsonData = fc: FeatureCollection | AllScenarioFeatures(fc.features)
    witness FeatureCollection([])

  datatype Scenario = Scenario(
    id: string,
    name: string,
    description: string,
    center: LatLng,
    zoom: int,
    data: Option<GeoJsonData>)

  /** An asset the user adds by hand. `id` is the creation timestamp. */
  datatype CustomAsset = CustomAsset(
    id: int,
    name: string,
    lat: real,
    lon: real,
    value: real,
    riskType: Option<string>,
    altitude: Option<real>)

  /** `assets.filter(asset => asset.id !== id)`: the removal both asset lists
      perform. */
  function RemoveById(assets: seq<CustomAsset>, id: int): (r: seq<CustomAsset>)
    ensures forall i :: 0 <= i < |r| ==> r[i].id != id && r[i] in assets
    ensures forall i :: 0 <= i < |assets| && assets[i].id != id ==> assets[i] in r
    ensures JsArrays.IsSubsequence(r, assets)
    ensures (forall i :: 0 <= i < |assets| ==> assets[i].id != id) ==> r == assets
    ensures |r| == JsArrays.CountIf(assets, (a: CustomAsset) => a.id != id)
  {
    JsArrays.Filter(assets, (a: CustomAsset) => a.id != id)
  }

  /** Removal looks at each asset on its own, so it distributes over
      concatenation; in particular it keeps the survivors' order. */
  lemma RemoveByIdAppend(a: seq<CustomAsset>, b: seq<CustomAsset>, id: int)
    ensures RemoveById(a + b, id) == RemoveById(a, id) + RemoveById(b, id)
  {
    JsArrays.FilterAppend(a, b, (x: CustomAsset) => x.id != id);
  }

  /** Removing the id of an asset just appended undoes the append whenever
      that id was fresh. */
  lemma RemoveUndoesAppend(assets: seq<CustomAsset>, x: CustomAsset)
    requires forall i :: 0 <= i < |assets| ==> assets[i].id != x.id
    ensures RemoveById(assets + [x], x.id) == assets
  {
    RemoveByIdAppend(assets, [x], x.id);
  }

  /** Removing twice by the same id removes nothing more. */
  lemma RemoveByIdIdempotent(assets: seq<CustomAsset>, id: int)
    ensures RemoveById(RemoveById(assets, id), id) == RemoveById(assets, id)
  {
  }
}
