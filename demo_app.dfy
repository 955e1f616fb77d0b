/** The stand-alone demo: exposure points read either from a preset GeoJSON
    file or from comma-separated text, sent to the impact service, and the
    map view that follows the chosen mode. */
module DemoApp {
  import opened Wrappers
  import opened Types
  import JsStrings
  import Constants

  /** One exposure point as sent to the service. A coordinate that is NaN or
      undefined is `None`; the value always ends up a number. */
  datatype ExposurePoint = ExposurePoint(lat: Option<real>, lon: Option<real>, value: real)

  /** `v ?? 1_000_000`: only a missing number is replaced. */
  function OrDefault(v: Option<real>): (r: real)
    ensures v.Some? ==> r == v.value
    ensures v.None? ==> r == 1000000.0
  {
    v.OrElse(1000000.0)
  }

  /** `v || 1_000_000`: every falsy number (missing, NaN or zero) is
      replaced, so the result is never zero. */
  function OrFalsy(v: Option<real>): (r: real)
    ensures r != 0.0
    ensures v.Some? && v.value != 0.0 ==> r == v.value
    ensures v.None? || v == Some(0.0) ==> r == 1000000.0
  {
    if v.Some? && v.value != 0.0 then v.value else 1000000.0
  }

  /** The two defaulting rules differ on exactly one input: an explicit zero,
      which `??` keeps and `||` replaces. */
  lemma DefaultsDifferOnlyOnZero(v: Option<real>)
    ensures OrFalsy(v) != OrDefault(v) <==> v == Some(0.0)
    ensures v == Some(0.0) ==> OrDefault(v) == 0.0 && OrFalsy(v) == 1000000.0
  {
  }

  /** The `i`-th comma-separated field of a line, trimmed and parsed;
      `None` when the line has fewer fields (destructuring gives
      `undefined`) or the text is not a number. */
  function Field(fields: seq<string>, i: nat, parse: string -> Option<real>): (r: Option<real>)
    ensures i >= |fields| ==> r.None?
    ensures i < |fields| ==> r == parse(JsStrings.Trim(fields[i]))
  {
    if i < |fields| then parse(JsStrings.Trim(fields[i])) else None
  }

  /** One CSV line: latitude, longitude and value are the first three
      fields; the value falls back with `||`. */
  function ParseCsvLine(line: string, parse: string -> Option<real>): (r: ExposurePoint)
    ensures r.value != 0.0
  {
    var fields := JsStrings.Split(line, ',');
    ExposurePoint(Field(fields, 0, parse), Field(fields, 1, parse), OrFalsy(Field(fields, 2, parse)))
  }

  /** A line built from three fields reads them back as latitude, longitude
      and value, whatever further fields follow. */
  lemma ParseCsvLineFields(lat: string, lon: string, value: string, rest: seq<string>,
                           parse: string -> Option<real>)
    requires ',' !in lat && ',' !in lon && ',' !in value
    requires forall k :: 0 <= k < |rest| ==> ',' !in rest[k]
    ensures var p := ParseCsvLine(JsStrings.Join([lat, lon, value] + rest, ','), parse);
            && p.lat == parse(JsStrings.Trim(lat))
            && p.lon == parse(JsStrings.Trim(lon))
            && p.value == OrFalsy(parse(JsStrings.Trim(value)))
  {
    var parts := [lat, lon, value] + rest;
    forall k | 0 <= k < |parts|
      ensures ',' !in parts[k]
    {
      if k >= 3 {
        assert parts[k] == rest[k - 3];
      }
    }
    JsStrings.SplitJoin(parts, ',');
    LineOfFields(JsStrings.Join(parts, ','), parts, parse);
  }

  /** A line whose comma-separated fields are known reads its first three. */
  lemma LineOfFields(line: string, fields: seq<string>, parse: string -> Option<real>)
    requires JsStrings.Split(line, ',') == fields && |fields| >= 3
    ensures var p := ParseCsvLine(line, parse);
            && p.lat == parse(JsStrings.Trim(fields[0]))
            && p.lon == parse(JsStrings.Trim(fields[1]))
            && p.value == OrFalsy(parse(JsStrings.Trim(fields[2])))
  {
  }

  /** A line with only a latitude has no longitude and the default value. */
  lemma ParseCsvLineShort(lat: string, parse: string -> Option<real>)
    requires ',' !in lat
    ensures ParseCsvLine(lat, parse) == ExposurePoint(parse(JsStrings.Trim(lat)), None, 1000000.0)
  {
    JsStrings.SplitJoin([lat], ',');
  }

  /** A line with a latitude and a longitude only: both are read, and the
      value defaults. */
  lemma ParseCsvLineTwo(lat: string, lon: string, parse: string -> Option<real>)
    requires ',' !in lat && ',' !in lon
    ensures ParseCsvLine(lat + "," + lon, parse) ==
            ExposurePoint(parse(JsStrings.Trim(lat)), parse(JsStrings.Trim(lon)), 1000000.0)
  {
    assert JsStrings.Join([lat, lon], ',') == lat + "," + lon;
    JsStrings.SplitJoin([lat, lon], ',');
  }

  /** `parseCsv`: the trimmed text split at line feeds, one point per line. */
  function ParseCsv(text: string, parse: string -> Option<real>): (r: seq<ExposurePoint>)
    ensures |r| == |JsStrings.Split(JsStrings.Trim(text), '\n')|
    ensures |r| == JsStrings.Occurrences(JsStrings.Trim(text), '\n') + 1
    ensures forall i :: 0 <= i < |r| ==>
              r[i] == ParseCsvLine(JsStrings.Split(JsStrings.Trim(text), '\n')[i], parse)
  {
    var lines := JsStrings.Split(JsStrings.Trim(text), '\n');
    JsStrings.SplitCount(JsStrings.Trim(text), '\n');
    seq(|lines|, i requires 0 <= i < |lines| => ParseCsvLine(lines[i], parse))
  }

  /** Text written as lines joined by line feeds, with nothing for `trim` to
      remove, gives one point per line, in order. */
  lemma ParseCsvLines(lines: seq<string>, parse: string -> Option<real>)
    requires |lines| >= 1
    requires forall k :: 0 <= k < |lines| ==> '\n' !in lines[k]
    requires JsStrings.Trim(JsStrings.Join(lines, '\n')) == JsStrings.Join(lines, '\n')
    ensures |ParseCsv(JsStrings.Join(lines, '\n'), parse)| == |lines|
    ensures forall i :: 0 <= i < |lines| ==>
              ParseCsv(JsStrings.Join(lines, '\n'), parse)[i] == ParseCsvLine(lines[i], parse)
  {
    JsStrings.SplitJoin(lines, '\n');
  }

  /** What a preset feature brings: an optional `properties` with an optional
      `value`, and the point's coordinates, longitude first. */
  datatype PresetProperties = PresetProperties(value: Option<real>)

  datatype PresetFeature = PresetFeature(properties: Option<PresetProperties>, coordinates: seq<real>)

  /** The coordinate at an index, `undefined` past the end. */
  function Coordinate(c: seq<real>, i: nat): (r: Option<real>)
    ensures i < |c| ==> r == Some(c[i])
    ensures i >= |c| ==> r.None?
  {
    if i < |c| then Some(c[i]) else None
  }

  /** The preset mapping of one feature: latitude is the second coordinate,
      longitude the first, and the value falls back with `??`. */
  function PresetExposure(f: PresetFeature): (r: ExposurePoint)
    ensures r.lat.Some? <==> |f.coordinates| >= 2
    ensures r.lon.Some? <==> |f.coordinates| >= 1
    ensures r.lat.Some? ==> r.lat.value == f.coordinates[1]
    ensures r.lon.Some? ==> r.lon.value == f.coordinates[0]
    ensures f.properties.Some? && f.properties.value.value.Some? ==> r.value == f.properties.value.value.value
    ensures f.properties.None? || f.properties.value.value.None? ==> r.value == 1000000.0
  {
    var v := if f.properties.Some? then f.properties.value.value else None;
    ExposurePoint(Coordinate(f.coordinates, 1), Coordinate(f.coordinates, 0), OrDefault(v))
  }

  function PresetExposures(fs: seq<PresetFeature>): (r: seq<ExposurePoint>)
    ensures |r| == |fs|
    ensures forall i :: 0 <= i < |fs| ==> r[i] == PresetExposure(fs[i])
  {
    seq(|fs|, i requires 0 <= i < |fs| => PresetExposure(fs[i]))
  }

  /** A GeoJSON point feature written `[lng, lat]` comes back as its
      latitude and longitude, and its value (an explicit zero included)
      is kept. */
  lemma PresetExposureReadsPoint(lng: real, lat: real, value: real)
    ensures PresetExposure(PresetFeature(Some(PresetProperties(Some(value))), [lng, lat]))
            == ExposurePoint(Some(lat), Some(lng), value)
  {
  }

  /** A preset feature without `properties` or without `value` gets the
      default value. */
  lemma PresetExposureDefault(f: PresetFeature)
    requires f.properties.None? || f.properties.value.value.None?
    ensures PresetExposure(f).value == 1000000.0
  {
  }

  /** The demo's scenarios: the file to load, the label, and the map view. */
  datatype DemoScenario = DemoScenario(file: string, name: string, center: LatLng, zoom: int)

  const DemoScenarios: map<string, DemoScenario> := map[
    "scenario1" := DemoScenario("/scenario1_irma.geojson", "Furacão Irma (2017)", LatLng(20.0, -65.0), 5),
    "scenario2" := DemoScenario("/scenario2_matthew.geojson", "Furacão Matthew (2016)", LatLng(19.0, -74.0), 6),
    "scenario3" := DemoScenario("/scenario3_maria.geojson", "Furacão Maria (2017)", LatLng(18.2, -66.5), 8)
  ]

  /** The keys of the demo's scenarios, in the dashboard catalog's order. */
  const DemoKeys: seq<string> := ["scenario1", "scenario2", "scenario3"]

  /** The demo's scenarios are the dashboard catalog's three, under shorter
      keys: same names, centres and zoom levels, in the same order. */
  lemma DemoMatchesCatalog(rolls: seq<real>, i: nat)
    requires |rolls| >= Constants.CatalogRolls && i < 3
    ensures DemoKeys[i] in DemoScenarios
    ensures var d, s := DemoScenarios[DemoKeys[i]], Constants.Scenarios(rolls)[i];
            d.name == s.name && d.center == s.center && d.zoom == s.zoom
  {
  }

  datatype Mode = Preset | Custom

  /** `mapCenter` and `mapZoom`: the selected scenario's view in preset
      mode, a fixed wide view otherwise. */
  function MapView(mode: Mode, selected: string): (r: (LatLng, int))
    requires mode == Preset ==> selected in DemoScenarios
    ensures mode == Custom ==> r == (LatLng(20.0, -60.0), 4)
    ensures mode == Preset ==> r == (DemoScenarios[selected].center, DemoScenarios[selected].zoom)
  {
    if mode == Preset then (DemoScenarios[selected].center, DemoScenarios[selected].zoom)
    else (LatLng(20.0, -60.0), 4)
  }

  /** In preset mode the map opens where the dashboard opens the same
      scenario. */
  lemma PresetViewIsCatalogView(rolls: seq<real>, i: nat)
    requires |rolls| >= Constants.CatalogRolls && i < 3
    ensures DemoKeys[i] in DemoScenarios
    ensures var s := Constants.Scenarios(rolls)[i];
            MapView(Preset, DemoKeys[i]) == (s.center, s.zoom)
  {
    DemoMatchesCatalog(rolls, i);
  }

  /** The body of the request to the impact service. */
  datatype Payload = Payload(hazardType: string, eventId: string, exposure: seq<ExposurePoint>, resolution: real)

  /** The service's answer: no answer at all, or a status with a body that
      may fail to parse as JSON. */
  datatype ApiResponse = NetworkError | Response(ok: bool, body: Option<FeatureCollection>)

  /** `callApi` completes (and stores the body) only for an ok answer whose
      body parses; every other answer throws. */
  predicate Succeeds(response: ApiResponse) {
    response.Response? && response.ok && response.body.Some?
  }

  class DemoState {
    var mode: Mode
    var selected: string
    var csvText: string
    var data: Option<FeatureCollection>
    var loading: bool

    /** The selected key always names a demo scenario. */
    ghost predicate Valid()
      reads this
    {
      selected in DemoScenarios
    }

    /** Preset mode, the first scenario, no text, no data, not loading. */
    constructor()
      ensures Valid()
      ensures mode == Preset && selected == "scenario1" && csvText == ""
      ensures data.None? && !loading
    {
      mode := Preset;
      selected := "scenario1";
      csvText := "";
      data := None;
      loading := false;
    }

    /** The layer is drawn only when there is data and nothing is loading. */
    predicate ShowsLayer(): (b: bool)
      reads this
      ensures b ==> data.Some?
      ensures loading ==> !b
      ensures data.Some? && !loading ==> b
    {
      data.Some? && !loading
    }

    /** `callApi`, only ever run while loading: it sends the exposure and
        stores the answer's body on success; a failure throws before `data`
        is touched. */
    method CallApi(exposure: seq<ExposurePoint>, response: ApiResponse) returns (sent: Payload, thrown: bool)
      requires loading
      modifies this`data
      ensures sent == Payload("TC", "dummy", exposure, 1.0)
      ensures thrown <==> !Succeeds(response)
      ensures !thrown ==> data == response.body
      ensures thrown ==> data == old(data)
    {
      sent := Payload("TC", "dummy", exposure, 1.0);
      if response.NetworkError? || !response.ok || response.body.None? {
        thrown := true;
        return;
      }
      data := response.body;
      thrown := false;
    }

    /** `loadPreset`: raise `loading`, fetch the selected scenario's file,
        send its points, and lower `loading` in every case. `files` gives a
        path's features, `None` when the fetch or the parse fails;
        `requested` is the path fetched and `sent` what reached the
        service, if anything. */
    method LoadPreset(files: string -> Option<seq<PresetFeature>>, response: ApiResponse)
      returns (requested: string, sent: Option<Payload>)
      requires Valid()
      modifies this`data, this`loading
      ensures Valid() && !loading
      ensures requested == DemoScenarios[selected].file
      ensures files(requested).None? ==> sent.None? && data == old(data)
      ensures files(requested).Some? ==>
                sent == Some(Payload("TC", "dummy", PresetExposures(files(requested).value), 1.0))
      ensures files(requested).Some? && Succeeds(response) ==> data == response.body && ShowsLayer()
      ensures files(requested).None? || !Succeeds(response) ==> data == old(data)
    {
      loading := true;
      sent := None;
      requested := DemoScenarios[selected].file;
      var geo := files(requested);
      if geo.Some? {
        var exposure := PresetExposures(geo.value);
        var payload, thrown := CallApi(exposure, response);
        sent := Some(payload);
      }
      loading := false;
    }

    /** `calcFromCsv`: the same steps with the points parsed from the text. */
    method CalcFromCsv(parse: string -> Option<real>, response: ApiResponse) returns (sent: Payload)
      requires Valid()
      modifies this`data, this`loading
      ensures Valid() && !loading
      ensures sent == Payload("TC", "dummy", ParseCsv(csvText, parse), 1.0)
      ensures Succeeds(response) ==> data == response.body && ShowsLayer()
      ensures !Succeeds(response) ==> data == old(data)
    {
      loading := true;
      var exposure := ParseCsv(csvText, parse);
      var thrown;
      sent, thrown := CallApi(exposure, response);
      loading := false;
    }

    /** The effect that follows a change of mode or selection: preset mode
        loads the preset, custom mode with non-blank text computes from the
        text, and otherwise the data is cleared. `sent` is what reached the
        service, if anything. */
    method Refresh(files: string -> Option<seq<PresetFeature>>, parse: string -> Option<real>, response: ApiResponse)
      returns (sent: Option<Payload>)
      requires Valid()
      modifies this`data, this`loading
      ensures Valid()
      ensures mode == Preset ==>
                var geo := files(DemoScenarios[selected].file);
                sent == (if geo.Some? then Some(Payload("TC", "dummy", PresetExposures(geo.value), 1.0)) else None)
      ensures mode == Custom && JsStrings.Trim(csvText) != "" ==>
                sent == Some(Payload("TC", "dummy", ParseCsv(csvText, parse), 1.0))
      ensures mode == Custom && JsStrings.Trim(csvText) == "" ==> sent.None?
      ensures mode == Preset ==>
                && !loading
                && (if files(DemoScenarios[selected].file).Some? && Succeeds(response)
                    then data == response.body else data == old(data))
      ensures mode == Custom && JsStrings.Trim(csvText) != "" ==>
                && !loading
                && (if Succeeds(response) then data == response.body else data == old(data))
      ensures mode == Custom && JsStrings.Trim(csvText) == "" ==>
                data.None? && loading == old(loading)
    {
      if mode == Preset {
        var requested;
        requested, sent := LoadPreset(files, response);
      } else if JsStrings.Trim(csvText) != "" {
        var payload := CalcFromCsv(parse, response);
        sent := Some(payload);
      } else {
        data := None;
        sent := None;
      }
    }

    /** The mode radio buttons. */
    method SetMode(m: Mode)
      modifies this`mode
      ensures mode == m
    {
      mode := m;
    }

    /** The scenario drop-down, whose options are the demo's keys. */
    method SetSelected(key: string)
      requires key in DemoScenarios
      modifies this`selected
      ensures Valid() && selected == key
    {
      selected := key;
    }

    /** The text area; editing the text does not re-run the effect. */
    method SetCsvText(text: string)
      modifies this`csvText
      ensures csvText == text
    {
      csvText := text;
    }
  }
}
