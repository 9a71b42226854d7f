/** The per-feature handler of `createFeatureHandlers`: for a feature whose row has a
    truthy value for the selected variable, it binds a tooltip and a click handler on the
    feature's layer; the click drills down one level (state, then county, then zip). */
module FeatureHandlers {
  import opened Wrappers
  import opened Js
  import opened FeatureJoin
  import MapStyles

  /** A tooltip: the region's label and its (unformatted) value. */
  datatype Tooltip = Tooltip(heading: Value, value: Value)

  /** A bound click handler and what a click does: a drill-down call, or nothing when no
      `onRegionSelect` callback was given. */
  datatype ClickHandler = ClickHandler(onClick: Option<Selection>)

  /** What the handler binds on one feature's layer. */
  datatype Binding = Binding(tooltip: Tooltip, click: ClickHandler)

  /** The drill-down level: state to county, county to zip, anything else back to state. */
  function NextLevel(level: string): (r: string)
    ensures level == "state" ==> r == "county"
    ensures level == "county" ==> r == "zip"
    ensures level != "state" && level != "county" ==> r == "state"
  {
    if level == "state" then "county" else if level == "county" then "zip" else "state"
  }

  /** The region label and identifier: `name`, else `ZCTA5CE10`. */
  function RegionLabel(props: Record): (r: Value)
    ensures Truthy(Get(props, "name")) ==> r == Get(props, "name")
    ensures !Truthy(Get(props, "name")) ==> r == Get(props, "ZCTA5CE10")
  {
    Or(Get(props, "name"), Get(props, "ZCTA5CE10"))
  }

  /** What the handler binds for a feature with these properties, if anything. */
  function HandlerBinding(data: Option<seq<Record>>, variable: Option<string>, level: string,
                          hasCallback: bool, props: Record): (r: Option<Binding>)
    ensures NoSelection(data, variable) ==> r.None?
    ensures r.Some? <==> !NoSelection(data, variable) && LevelRow(data.value, level, props).Some? &&
                         Truthy(Get(LevelRow(data.value, level, props).value, variable.value))
    ensures r.Some? ==> r.value.tooltip == Tooltip(RegionLabel(props), Get(LevelRow(data.value, level, props).value, variable.value))
    ensures r.Some? ==> (r.value.click.onClick.Some? <==> hasCallback)
    ensures r.Some? && hasCallback ==> r.value.click.onClick.value == Selection(RegionLabel(props), NextLevel(level))
  {
    if NoSelection(data, variable) then None
    else
      match LevelRow(data.value, level, props)
      case None => None
      case Some(row) =>
        var value := Get(row, variable.value);
        if !Truthy(value) then None
        else
          var select := if hasCallback then Some(Selection(RegionLabel(props), NextLevel(level))) else None;
          Some(Binding(Tooltip(RegionLabel(props), value), ClickHandler(select)))
  }

  /** A map layer: the handler's only effect is to bind a tooltip and a click handler. */
  class Layer {
    var tooltip: Option<Tooltip>
    var click: Option<ClickHandler>

    constructor ()
      ensures tooltip == None && click == None
    {
      tooltip := None;
      click := None;
    }

    /** `onEachFeature(feature, layer)`: binds the tooltip and the click handler when the
        feature's row has a value, and otherwise leaves the layer untouched. */
    method OnEachFeature(data: Option<seq<Record>>, variable: Option<string>, level: string,
                         hasCallback: bool, props: Record)
      modifies this
      ensures HandlerBinding(data, variable, level, hasCallback, props).None? ==>
        tooltip == old(tooltip) && click == old(click)
      ensures HandlerBinding(data, variable, level, hasCallback, props).Some? ==>
        tooltip == Some(HandlerBinding(data, variable, level, hasCallback, props).value.tooltip) &&
        click == Some(HandlerBinding(data, variable, level, hasCallback, props).value.click)
    {
      if NoSelection(data, variable) {
        return;
      }
      var regionData := LevelRow(data.value, level, props);
      if regionData.Some? && Truthy(Get(regionData.value, variable.value)) {
        tooltip := Some(Tooltip(RegionLabel(props), Get(regionData.value, variable.value)));
        var select: Option<Selection> := None;
        if hasCallback {
          var nextLevel := "state";
          if level == "state" {
            nextLevel := "county";
          } else if level == "county" {
            nextLevel := "zip";
          }
          select := Some(Selection(RegionLabel(props), nextLevel));
        }
        click := Some(ClickHandler(select));
      }
    }
  }

  /** The getColor result is the no-data grey exactly for falsy values. */
  lemma NoDataColorIffFalsy(v: Value)
    ensures MapStyles.GetColor(v) == MapStyles.NO_DATA_COLOR <==> !Truthy(v)
  {
    if Truthy(v) && ToNumber(v).Some? {
      var n := ToNumber(v).value;
      assert MapStyles.BucketColor(n) != MapStyles.NO_DATA_COLOR;
    }
  }

  /** Tooltips and coloured fills agree: a feature gets a tooltip exactly when a selection is
      made and its choropleth fill is not the no-data grey. */
  lemma TooltipIffColoured(data: Option<seq<Record>>, variable: Option<string>, level: string,
                           hasCallback: bool, props: Record)
    ensures HandlerBinding(data, variable, level, hasCallback, props).Some? <==>
      !NoSelection(data, variable) && MapStyles.RegionStyle(data, variable, level, props).fillColor != MapStyles.NO_DATA_COLOR
  {
    if !NoSelection(data, variable) {
      var row := LevelRow(data.value, level, props);
      if row.Some? {
        NoDataColorIffFalsy(Get(row.value, variable.value));
      }
    }
  }
}
