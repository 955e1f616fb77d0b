/** The map layer's per-feature rules: the circle marker drawn for a
    scenario point and the popup bound to it. */
module MapWrapper {
  import opened Wrappers
  import opened Types
  import Constants

  /** The options of a circle marker. */
  datatype MarkerStyle = MarkerStyle(radius: real, color: string, weight: int, fillColor: string, fillOpacity: real)

  function Max(a: real, b: real): real {
    if a >= b then a else b
  }

  /** `pointToLayer`: points with a positive impact are red and grow with
      the logarithm of the impact, never below 8; the others are orange
      with radius 6. `log10` stands for `Math.log10`. */
  function PointToLayer(props: ScenarioProperties, log10: real -> real): (r: MarkerStyle)
    ensures props.eai <= 0.0 ==> r.radius == 6.0
    ensures props.eai > 0.0 ==>
              && r.radius >= 8.0
              && r.radius >= 5.0 + log10(props.eai + 1.0) * 2.0
              && (r.radius == 8.0 || r.radius == 5.0 + log10(props.eai + 1.0) * 2.0)
    ensures r.color == "#b91c1c" <==> props.eai > 0.0
    ensures r.color == "#c2410c" <==> props.eai <= 0.0
    ensures r.fillColor == "#ef4444" <==> props.eai > 0.0
    ensures r.fillColor == "#f97316" <==> props.eai <= 0.0
    ensures r.weight == 2 && r.fillOpacity == 0.7
  {
    var radius := if props.eai > 0.0 then Max(8.0, 5.0 + log10(props.eai + 1.0) * 2.0) else 6.0;
    MarkerStyle(
      radius,
      if props.eai > 0.0 then "#b91c1c" else "#c2410c",
      2,
      if props.eai > 0.0 then "#ef4444" else "#f97316",
      0.7)
  }

  /** A point with an impact is always drawn larger than one without, and,
      for an increasing logarithm, a larger impact never gives a smaller
      marker. */
  lemma RadiusOrder(p: ScenarioProperties, q: ScenarioProperties, log10: real -> real)
    requires forall x, y :: 0.0 < x <= y ==> log10(x) <= log10(y)
    ensures p.eai <= 0.0 < q.eai ==> PointToLayer(p, log10).radius < PointToLayer(q, log10).radius
    ensures 0.0 < p.eai <= q.eai ==> PointToLayer(p, log10).radius <= PointToLayer(q, log10).radius
  {
    if 0.0 < p.eai <= q.eai {
      assert log10(p.eai + 1.0) <= log10(q.eai + 1.0);
    }
  }

  /** What the popup shows: the exposed value, the expected annual impact,
      and the position as latitude then longitude. */
  datatype PopupInfo = PopupInfo(value: real, eai: real, lat: real, lng: real)

  /** `onEachFeature`: a popup only for a feature with properties and point
      geometry, reading the coordinates as `[lng, lat]`. */
  function Popup(f: Feature): (r: Option<PopupInfo>)
    ensures r.Some? <==> f.properties.Some? && f.geometry.Point?
    ensures r.Some? ==>
              && r.value.value == f.properties.value.value
              && r.value.eai == f.properties.value.eai
              && r.value.lng == f.geometry.coordinates[0]
              && r.value.lat == f.geometry.coordinates[1]
  {
    if f.properties.Some? && f.geometry.Point? then
      var c := f.geometry.coordinates;
      Some(PopupInfo(f.properties.value.value, f.properties.value.eai, c[1], c[0]))
    else
      None
  }

  /** The generator writes `[lng, lat]` and the popup reads `[lng, lat]`, so
      a generated point's popup shows the latitude and longitude it was
      drawn at, not swapped. */
  lemma PopupOfGenerated(center: LatLng, bboxSize: real, highExposure: bool, rolls: seq<real>)
    requires |rolls| >= 5
    ensures var d := Constants.DrawFeature(center, bboxSize, highExposure, rolls);
            var p := Popup(d.feature);
            && p.Some?
            && p.value.lat == center.lat + Constants.Scaled(rolls[0] - 0.5, bboxSize)
            && p.value.lng == center.lng + Constants.Scaled(rolls[1] - 0.5, bboxSize)
            && p.value.value == Constants.DrawProperties(highExposure, rolls).0.value
            && p.value.eai == Constants.DrawProperties(highExposure, rolls).0.eai
  {
  }

  /** Every point of a catalog scenario has a popup placed within half its
      box size of the scenario's centre, and an orange 6-pixel marker
      exactly when it has no impact. */
  lemma CatalogPopups(rolls: seq<real>, i: nat, k: nat, log10: real -> real)
    requires |rolls| >= Constants.CatalogRolls && Constants.UnitRolls(rolls) && i < 3
    requires k < |Constants.Scenarios(rolls)[i].data.value.features|
    ensures var s := Constants.Scenarios(rolls)[i];
            var f := s.data.value.features[k];
            var p := Popup(f);
            var half := Constants.CatalogBoxSizes[i] / 2.0;
            && p.Some?
            && s.center.lat - half <= p.value.lat <= s.center.lat + half
            && s.center.lng - half <= p.value.lng <= s.center.lng + half
            && (PointToLayer(f.properties.value, log10).radius == 6.0 <==> f.properties.value.eai == 0.0)
  {
    Constants.CatalogFeaturesOk(rolls);
  }
}
