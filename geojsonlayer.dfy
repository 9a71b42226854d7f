/** The GeoJSON layer component: it renders only when boundaries are loaded, and a click on
    a feature both drills down (calls `onRegionSelect` with a region id and the next level)
    and opens a popup with the feature's row value. Both effects are returned as actions. */
module GeoJsonLayer {
  import opened Wrappers
  import opened Js
  import opened FeatureJoin
  import MapStyles
  import FeatureHandlers

  /** A popup: its title, the variable and the (unformatted) value shown. */
  datatype Popup = Popup(title: Value, variable: string, value: Value)

  /** The effects of one click: at most one drill-down call and at most one popup. */
  datatype ClickOutcome = ClickOutcome(selected: Option<Selection>, popup: Option<Popup>)

  /** The drill-down level on click: state to county, county to tract, anything else back to
      state. */
  function NextLevel(level: string): (r: string)
    ensures level == "state" ==> r == "county"
    ensures level == "county" ==> r == "tract"
    ensures level != "state" && level != "county" ==> r == "state"
  {
    if level == "state" then "county" else if level == "county" then "tract" else "state"
  }

  /** The region id passed on click: the first truthy of STATEFP, GEOID, name at state level;
      of COUNTYFP, GEOID at county level; of GEOID, TRACTCE otherwise (the last candidate
      when none is truthy). */
  function RegionId(level: string, props: Record): (r: Value)
    ensures level == "state" ==> r == OrAll([Get(props, "STATEFP"), Get(props, "GEOID"), Get(props, "name")])
    ensures level == "county" ==> r == OrAll([Get(props, "COUNTYFP"), Get(props, "GEOID")])
    ensures level != "state" && level != "county" ==> r == OrAll([Get(props, "GEOID"), Get(props, "TRACTCE")])
  {
    var candidates :=
      if level == "state" then [Get(props, "STATEFP"), Get(props, "GEOID"), Get(props, "name")]
      else if level == "county" then [Get(props, "COUNTYFP"), Get(props, "GEOID")]
      else [Get(props, "GEOID"), Get(props, "TRACTCE")];
    OrAll(candidates)
  }

  /** The popup title: NAME, else name, else GEOID, else "Selected Region". */
  function PopupTitle(props: Record): (r: Value)
    ensures Truthy(r)
    ensures r == OrAll([Get(props, "NAME"), Get(props, "name"), Get(props, "GEOID"), Str("Selected Region")])
  {
    var candidates := [Get(props, "NAME"), Get(props, "name"), Get(props, "GEOID"), Str("Selected Region")];
    assert Truthy(candidates[3]);
    OrAll(candidates)
  }

  /** `handleFeatureClick` on a click whose target feature has these properties (`None`: no
      feature). */
  function HandleFeatureClick(data: Option<seq<Record>>, variable: Option<string>, level: string,
                              hasCallback: bool, feature: Option<Record>): (r: ClickOutcome)
    ensures r.selected.Some? <==> hasCallback && feature.Some?
    ensures r.selected.Some? ==> r.selected.value == Selection(RegionId(level, feature.value), NextLevel(level))
    ensures r.popup.Some? <==> !NoSelection(data, variable) && feature.Some? &&
                               PopupRow(data.value, feature.value).Some? &&
                               Truthy(Get(PopupRow(data.value, feature.value).value, variable.value))
    ensures r.popup.Some? ==>
      r.popup.value == Popup(PopupTitle(feature.value), variable.value, Get(PopupRow(data.value, feature.value).value, variable.value))
  {
    var selected :=
      if hasCallback && feature.Some? then Some(Selection(RegionId(level, feature.value), NextLevel(level))) else None;
    var popup :=
      if NoSelection(data, variable) || feature.None? then None
      else
        match PopupRow(data.value, feature.value)
        case Some(row) =>
          if Truthy(Get(row, variable.value)) then Some(Popup(PopupTitle(feature.value), variable.value, Get(row, variable.value)))
          else None
        case None => None;
    ClickOutcome(selected, popup)
  }

  /** The component's output as written: nothing without boundaries; otherwise a GeoJSON
      layer whose path options are the style function applied to `{}`, which can throw. */
  function RenderAsWritten<G>(usGeoJson: Option<G>, data: Option<seq<Record>>, variable: Option<string>, level: string): (r: Option<Result<MapStyles.Style>>)
    ensures r.None? <==> usGeoJson.None?
    ensures r.Some? ==> r.value == MapStyles.EmptyObjectStyleAsWritten(data, variable, level)
  {
    if usGeoJson.None? then None else Some(MapStyles.EmptyObjectStyleAsWritten(data, variable, level))
  }

  /** The component's output as evidently intended: nothing without boundaries; otherwise a
      layer with the default path style, which never throws. */
  function Render<G>(usGeoJson: Option<G>, data: Option<seq<Record>>, variable: Option<string>, level: string): (r: Option<MapStyles.Style>)
    ensures r.None? <==> usGeoJson.None?
    ensures r.Some? ==> r.value == MapStyles.DefaultStyle(data, variable, level)
    ensures r.Some? ==> r.value.fillColor == if NoSelection(data, variable) then MapStyles.BASE_COLOR else MapStyles.NO_DATA_COLOR
  {
    if usGeoJson.None? then None else Some(MapStyles.DefaultStyle(data, variable, level))
  }

  /** Where the as-written render does not throw, it agrees with the intended one. */
  lemma RenderAgreesWhenNoThrow<G>(usGeoJson: Option<G>, data: Option<seq<Record>>, variable: Option<string>, level: string)
    requires RenderAsWritten(usGeoJson, data, variable, level).Some?
    requires RenderAsWritten(usGeoJson, data, variable, level).value.Ok?
    ensures Render(usGeoJson, data, variable, level) == Some(RenderAsWritten(usGeoJson, data, variable, level).value.value)
  {
  }

  /** The layer's click and the tooltip handler's click drill down to the same level except
      at county, where the layer goes to tract and the tooltip handler to zip. */
  lemma DrillDownLevelsDiffer(level: string)
    ensures NextLevel(level) != FeatureHandlers.NextLevel(level) <==> level == "county"
  {
  }

  /** At state level the id is the FIPS code when there is one, even when GEOID and name are
      also set. */
  lemma StateIdPrefersFips(props: Record)
    requires Truthy(Get(props, "STATEFP"))
    ensures RegionId("state", props) == Get(props, "STATEFP")
  {
  }

  /** A popup's title is the first truthy of NAME, name and GEOID, and "Selected Region" only
      when none of them is set. */
  lemma PopupTitleFallback(props: Record)
    ensures !Truthy(Get(props, "NAME")) && !Truthy(Get(props, "name")) && !Truthy(Get(props, "GEOID")) ==>
      PopupTitle(props) == Str("Selected Region")
    ensures Truthy(Get(props, "NAME")) ==> PopupTitle(props) == Get(props, "NAME")
  {
    var vs := [Get(props, "NAME"), Get(props, "name"), Get(props, "GEOID"), Str("Selected Region")];
    if !Truthy(Get(props, "NAME")) && !Truthy(Get(props, "name")) && !Truthy(Get(props, "GEOID")) {
      assert forall j :: 0 <= j < 3 ==> !Truthy(vs[j]);
    }
  }
}
