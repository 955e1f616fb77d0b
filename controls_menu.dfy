/** The controls menu's own custom-asset list and the four-field form that
    feeds it. The list is local to the menu; it is not the dashboard's. */
module ControlsMenu {
  import opened Wrappers
  import opened Types

  /** The asset a submit of the form would create, or `None` when the form is
      refused: the name must be non-empty and the three numeric fields must
      all parse to a number. No range is checked. `now` is the clock reading
      used as the id; the new asset carries no risk type and no altitude. */
  function NewAsset(name: string, latText: string, lonText: string, valueText: string,
                    parse: string -> Option<real>, now: int): (r: Option<CustomAsset>)
    ensures r.Some? <==>
              name != "" && parse(latText).Some? && parse(lonText).Some? && parse(valueText).Some?
    ensures r.Some? ==>
              && r.value.id == now && r.value.name == name
              && r.value.lat == parse(latText).value
              && r.value.lon == parse(lonText).value
              && r.value.value == parse(valueText).value
              && r.value.riskType.None? && r.value.altitude.None?
  {
    var lat, lon, value := parse(latText), parse(lonText), parse(valueText);
    if name != "" && lat.Some? && lon.Some? && value.Some? then
      Some(CustomAsset(now, name, lat.value, lon.value, value.value, None, None))
    else
      None
  }

  /** Acceptance depends on the texts parsing and not on the numbers they
      parse to: two forms whose fields parse alike are accepted alike, so a
      latitude of 95 or a negative value is as good as any other. */
  lemma NoRangeCheck(name: string, lat1: string, lon1: string, value1: string,
                     lat2: string, lon2: string, value2: string,
                     parse: string -> Option<real>, now: int)
    requires parse(lat1).Some? == parse(lat2).Some?
    requires parse(lon1).Some? == parse(lon2).Some?
    requires parse(value1).Some? == parse(value2).Some?
    ensures NewAsset(name, lat1, lon1, value1, parse, now).Some? ==
            NewAsset(name, lat2, lon2, value2, parse, now).Some?
  {
  }

  /** The four text inputs of the form. */
  datatype FormField = Name | Latitude | Longitude | Value

  class AssetForm {
    var assets: seq<CustomAsset>
    var assetName: string
    var assetLat: string
    var assetLon: string
    var assetValue: string

    /** No assets and an empty form. */
    constructor()
      ensures assets == [] && assetName == "" && assetLat == "" && assetLon == "" && assetValue == ""
    {
      assets := [];
      assetName, assetLat, assetLon, assetValue := "", "", "", "";
    }

    /** Typing into one input replaces that field's text. */
    method EditField(field: FormField, text: string)
      modifies this`assetName, this`assetLat, this`assetLon, this`assetValue
      ensures assetName == (if field == Name then text else old(assetName))
      ensures assetLat == (if field == Latitude then text else old(assetLat))
      ensures assetLon == (if field == Longitude then text else old(assetLon))
      ensures assetValue == (if field == Value then text else old(assetValue))
    {
      match field
      case Name => assetName := text;
      case Latitude => assetLat := text;
      case Longitude => assetLon := text;
      case Value => assetValue := text;
    }

    /** A submit: an accepted form appends its asset at the end of the list
        and clears all four fields; a refused one changes nothing. */
    method HandleAddAsset(now: int, parse: string -> Option<real>)
      modifies this
      ensures match NewAsset(old(assetName), old(assetLat), old(assetLon), old(assetValue), parse, now)
              case Some(a) =>
                && assets == old(assets) + [a]
                && assetName == "" && assetLat == "" && assetLon == "" && assetValue == ""
              case None =>
                && assets == old(assets)
                && assetName == old(assetName) && assetLat == old(assetLat)
                && assetLon == old(assetLon) && assetValue == old(assetValue)
    {
      var lat := parse(assetLat);
      var lon := parse(assetLon);
      var value := parse(assetValue);
      if assetName != "" && lat.Some? && lon.Some? && value.Some? {
        var newAsset := CustomAsset(now, assetName, lat.value, lon.value, value.value, None, None);
        assets := assets + [newAsset];
        assetName, assetLat, assetLon, assetValue := "", "", "", "";
      }
    }

    /** The trash button: keep the assets whose id differs, in order. The
        form is left alone. */
    method HandleRemoveAsset(id: int)
      modifies this`assets
      ensures assets == RemoveById(old(assets), id)
    {
      assets := RemoveById(assets, id);
    }
  }
}
