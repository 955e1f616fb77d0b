/** The mock data generator and the static scenario catalog.
    `Math.random()` is an oracle: the sequence `rolls` holds its successive
    results, each in [0, 1), consumed in the order the generator calls it. */
module Constants {
  import opened Wrappers
  import opened Types

  predicate IsInteger(x: real) {
    x == x.Floor as real
  }

  function Abs(x: real): real {
    if x < 0.0 then -x else x
  }

  /** Every roll is a possible result of `Math.random()`. */
  predicate UnitRolls(rolls: seq<real>) {
    forall k :: 0 <= k < |rolls| ==> 0.0 <= rolls[k] < 1.0
  }

  /** `Math.random() * x`, and `(Math.random() - 0.5) * x`. */
  function Scaled(r: real, x: real): real {
    r * x
  }

  /** One generated feature and how many rolls it consumed. */
  datatype Draw = Draw(feature: Feature, used: nat)

  /** The numbers of one generated point, drawn from `rolls[2..]`: the
      value, then whether the point has an impact, then the impact only when
      it has one. Also returns how many rolls were consumed. */
  function DrawProperties(highExposure: bool, rolls: seq<real>): (r: (ScenarioProperties, nat))
    requires |rolls| >= 5
    ensures r.1 == 4 || r.1 == 5
    ensures r.1 == 5 <==> (if highExposure then rolls[3] > 0.1 else rolls[3] > 0.4)
    ensures r.1 == 4 ==> r.0.eai == 0.0
  {
    var value := Scaled(rolls[2], 10000000.0 - 500000.0).Floor + 500000;
    var hasImpact := if highExposure then rolls[3] > 0.1 else rolls[3] > 0.4;
    var eai := if hasImpact then Scaled(rolls[4], value as real * 0.08).Floor else 0;
    (ScenarioProperties(value as real, eai as real), if hasImpact then 5 else 4)
  }

  /** One iteration of the generator loop: rolls for latitude and longitude,
      then the point's numbers. */
  function DrawFeature(center: LatLng, bboxSize: real, highExposure: bool, rolls: seq<real>): (d: Draw)
    requires |rolls| >= 5
    ensures d.used == 4 || d.used == 5
    ensures IsScenarioFeature(d.feature)
  {
    var lat := center.lat + Scaled(rolls[0] - 0.5, bboxSize);
    var lng := center.lng + Scaled(rolls[1] - 0.5, bboxSize);
    var (props, used) := DrawProperties(highExposure, rolls);
    Draw(Feature(Some(props), Point([lng, lat])), used)
  }

  /** The features after `n` iterations of the generator loop, and the number
      of rolls consumed so far. */
  function MockRun(n: nat, center: LatLng, bboxSize: real, highExposure: bool, rolls: seq<real>): (r: (seq<Feature>, nat))
    requires |rolls| >= 5 * n
    ensures |r.0| == n && 4 * n <= r.1 <= 5 * n
    ensures AllScenarioFeatures(r.0)
  {
    if n == 0 then ([], 0)
    else
      var (fs, pos) := MockRun(n - 1, center, bboxSize, highExposure, rolls);
      var d := DrawFeature(center, bboxSize, highExposure, rolls[pos..]);
      (fs + [d.feature], pos + d.used)
  }

  /** The generator's promise about a point's numbers: an integral value in
      [500000, 10000000) and an integral impact in [0, 8% of the value). */
  predicate MockPropertiesOk(p: ScenarioProperties) {
    && IsInteger(p.value) && 500000.0 <= p.value < 10000000.0
    && IsInteger(p.eai) && 0.0 <= p.eai < p.value * 0.08
  }

  /** The generator's promise about a point's place: a position
      `[lng, lat]` within half the box size of the centre `[lat, lng]`. */
  predicate MockPositionOk(c: Position, center: LatLng, bboxSize: real) {
    && |c| == 2
    && -Abs(bboxSize) / 2.0 <= c[1] - center.lat <= Abs(bboxSize) / 2.0
    && -Abs(bboxSize) / 2.0 <= c[0] - center.lng <= Abs(bboxSize) / 2.0
  }

  predicate MockFeatureOk(f: Feature, center: LatLng, bboxSize: real) {
    && f.properties.Some?
    && f.geometry.Point?
    && MockPropertiesOk(f.properties.value)
    && MockPositionOk(f.geometry.coordinates, center, bboxSize)
  }

  /** A product of non-negative numbers is non-negative: the one step of
      non-linear arithmetic the bounds below need. */
  lemma MulNonneg(a: real, b: real)
    requires 0.0 <= a && 0.0 <= b
    ensures 0.0 <= a * b
  {
  }

  /** `(Math.random() - 0.5) * size` stays within half the size either way. */
  lemma OffsetBound(r: real, size: real)
    requires 0.0 <= r < 1.0
    ensures -Abs(size) / 2.0 <= Scaled(r - 0.5, size) <= Abs(size) / 2.0
  {
    assert (r - 0.5) * size == r * size - 0.5 * size;
    if size >= 0.0 {
      MulNonneg(r, size);
      MulNonneg(1.0 - r, size);
      assert (1.0 - r) * size == size - r * size;
    } else {
      MulNonneg(r, -size);
      MulNonneg(1.0 - r, -size);
      assert r * (-size) == -(r * size);
      assert (1.0 - r) * (-size) == r * size - size;
    }
  }

  /** `Math.random() * x` is in [0, x) for positive `x`. */
  lemma ScaledBelow(r: real, x: real)
    requires 0.0 <= r < 1.0 && x > 0.0
    ensures 0.0 <= r * x < x
  {
    MulNonneg(r, x);
    assert x - r * x == (1.0 - r) * x;
  }

  lemma ValueInRange(r: real)
    requires 0.0 <= r < 1.0
    ensures 500000 <= Scaled(r, 10000000.0 - 500000.0).Floor + 500000 < 10000000
  {
    var y := r * (10000000.0 - 500000.0);
    assert 0.0 <= y < (10000000.0 - 500000.0);
  }

  lemma ImpactInRange(r: real, value: int)
    requires 0.0 <= r < 1.0 && value >= 500000
    ensures 0 <= Scaled(r, value as real * 0.08).Floor
    ensures (Scaled(r, value as real * 0.08).Floor as real) < value as real * 0.08
  {
    ScaledBelow(r, value as real * 0.08);
  }

  lemma DrawPropertiesOk(highExposure: bool, rolls: seq<real>)
    requires |rolls| >= 5 && UnitRolls(rolls)
    ensures MockPropertiesOk(DrawProperties(highExposure, rolls).0)
  {
    ValueInRange(rolls[2]);
    var value := Scaled(rolls[2], 10000000.0 - 500000.0).Floor + 500000;
    ImpactInRange(rolls[4], value);
    var p := DrawProperties(highExposure, rolls).0;
    assert p.value == value as real;
    assert IsInteger(p.value);
    assert p.eai == 0.0 || p.eai == Scaled(rolls[4], value as real * 0.08).Floor as real;
    assert IsInteger(p.eai);
  }

  lemma DrawFeatureOk(center: LatLng, bboxSize: real, highExposure: bool, rolls: seq<real>)
    requires |rolls| >= 5 && UnitRolls(rolls)
    ensures MockFeatureOk(DrawFeature(center, bboxSize, highExposure, rolls).feature, center, bboxSize)
  {
    OffsetBound(rolls[0], bboxSize);
    OffsetBound(rolls[1], bboxSize);
    DrawPropertiesOk(highExposure, rolls);
  }

  /** Every point the loop produces meets `MockFeatureOk`. */
  lemma {:induction false} MockRunOk(n: nat, center: LatLng, bboxSize: real, highExposure: bool, rolls: seq<real>)
    requires |rolls| >= 5 * n && UnitRolls(rolls)
    ensures forall i :: 0 <= i < n ==> MockFeatureOk(MockRun(n, center, bboxSize, highExposure, rolls).0[i], center, bboxSize)
  {
    if n > 0 {
      MockRunOk(n - 1, center, bboxSize, highExposure, rolls);
      var (fs, pos) := MockRun(n - 1, center, bboxSize, highExposure, rolls);
      DrawFeatureOk(center, bboxSize, highExposure, rolls[pos..]);
    }
  }

  /** `generateMockGeoJson`: a counted loop that pushes one feature per
      iteration, each drawn as `DrawFeature` from the rolls not yet used.
      Returns the collection and the number of rolls used. */
  method GenerateMockGeoJson(count: nat, center: LatLng, bboxSize: real, highExposure: bool, rolls: seq<real>)
    returns (data: GeoJsonData, used: nat)
    requires |rolls| >= 5 * count && UnitRolls(rolls)
    ensures (data.features, used) == MockRun(count, center, bboxSize, highExposure, rolls)
    ensures |data.features| == count
    ensures forall i :: 0 <= i < count ==> MockFeatureOk(data.features[i], center, bboxSize)
  {
    var features: seq<Feature> := [];
    var pos := 0;
    for i := 0 to count
      invariant (features, pos) == MockRun(i, center, bboxSize, highExposure, rolls)
    {
      var draw := DrawFeature(center, bboxSize, highExposure, rolls[pos..]);
      features := features + [draw.feature];
      pos := pos + draw.used;
    }
    MockRunOk(count, center, bboxSize, highExposure, rolls);
    data := FeatureCollection(features);
    used := pos;
  }

  /** Rolls the three catalog scenarios need at most. */
  const CatalogRolls: nat := 5 * (5 + 10 + 8)

  /** Box sizes the catalog passes to the generator, in catalog order. */
  const CatalogBoxSizes: seq<real> := [6.0, 5.0, 2.0]

  /** The `scenarios` catalog, generated in order from the rolls. */
  function Scenarios(rolls: seq<real>): (r: seq<Scenario>)
    requires |rolls| >= CatalogRolls
    ensures |r| == 3
    ensures forall i :: 0 <= i < 3 ==> r[i].data.Some?
    ensures |r[0].data.value.features| == 5
    ensures |r[1].data.value.features| == 10
    ensures |r[2].data.value.features| == 8
  {
    var (f1, u1) := MockRun(5, LatLng(20.0, -65.0), 6.0, false, rolls);
    var (f2, u2) := MockRun(10, LatLng(19.0, -74.0), 5.0, false, rolls[u1..]);
    var (f3, u3) := MockRun(8, LatLng(18.2, -66.5), 2.0, true, rolls[u1 + u2..]);
    [ Scenario("scenario1_irma", "Furacão Irma (2017)",
               "Caribe Oriental - 5 pontos de exposição",
               LatLng(20.0, -65.0), 5, Some(FeatureCollection(f1))),
      Scenario("scenario2_matthew", "Furacão Matthew (2016)",
               "Haiti/Cuba - 10 pontos de exposição",
               LatLng(19.0, -74.0), 6, Some(FeatureCollection(f2))),
      Scenario("scenario3_maria", "Furacão Maria (2017)",
               "Porto Rico - 8 pontos de alta exposição",
               LatLng(18.2, -66.5), 8, Some(FeatureCollection(f3))) ]
  }

  /** The catalog's ids are pairwise distinct, so an id selects at most one
      scenario. */
  lemma CatalogIdsDistinct(rolls: seq<real>)
    requires |rolls| >= CatalogRolls
    ensures forall i, j :: 0 <= i < j < |Scenarios(rolls)| ==> Scenarios(rolls)[i].id != Scenarios(rolls)[j].id
  {
    var r := Scenarios(rolls);
    assert r[0].id[8] == '1' && r[1].id[8] == '2' && r[2].id[8] == '3';
  }

  /** Every catalog point meets the generator's promises, with its scenario's
      own centre and box size. */
  lemma CatalogFeaturesOk(rolls: seq<real>)
    requires |rolls| >= CatalogRolls && UnitRolls(rolls)
    ensures forall i, k :: 0 <= i < 3 && 0 <= k < |Scenarios(rolls)[i].data.value.features| ==>
              MockFeatureOk(Scenarios(rolls)[i].data.value.features[k], Scenarios(rolls)[i].center, CatalogBoxSizes[i])
  {
    var (f1, u1) := MockRun(5, LatLng(20.0, -65.0), 6.0, false, rolls);
    var (f2, u2) := MockRun(10, LatLng(19.0, -74.0), 5.0, false, rolls[u1..]);
    MockRunOk(5, LatLng(20.0, -65.0), 6.0, false, rolls);
    MockRunOk(10, LatLng(19.0, -74.0), 5.0, false, rolls[u1..]);
    MockRunOk(8, LatLng(18.2, -66.5), 2.0, true, rolls[u1 + u2..]);
  }
}
