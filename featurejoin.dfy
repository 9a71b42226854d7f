/** Joining a statistics row to a map feature. The choropleth style and the tooltip
    handlers share one rule (by geography level); the click popup uses another (GEOID
    equality first, then name containment). Both pick the first matching row in data order,
    as `Array.prototype.find` does. */
module FeatureJoin {
  import opened Wrappers
  import opened Js

  /** No data (`undefined`) or no variable (`undefined` or `""`): the guard `!data ||
      !variable`. An empty data array is truthy, so it is a selection. */
  predicate NoSelection(data: Option<seq<Record>>, variable: Option<string>) {
    data.None? || variable.None? || variable.value == ""
  }

  /** A call `onRegionSelect(region, level)`: drill down into a region at a level. */
  datatype Selection = Selection(region: Value, level: string)

  /** The style/tooltip rule: at state and county level the row's NAME contains the
      feature's `name`; at zip level it contains `ZCTA5CE10`; at any other level no row
      matches. Both operands must be truthy. */
  predicate LevelMatch(level: string, item: Record, props: Record) {
    if level == "state" || level == "county" then
      Truthy(Get(item, "NAME")) && Truthy(Get(props, "name")) && Includes(Get(item, "NAME"), Get(props, "name"))
    else if level == "zip" then
      Truthy(Get(item, "NAME")) && Truthy(Get(props, "ZCTA5CE10")) && Includes(Get(item, "NAME"), Get(props, "ZCTA5CE10"))
    else
      false
  }

  /** The popup rule: when both sides carry a GEOID, strict equality of the GEOIDs decides;
      otherwise, when both carry a name, NAME containing `name` decides; otherwise no match. */
  predicate GeoidOrNameMatch(item: Record, props: Record) {
    if Truthy(Get(item, "GEOID")) && Truthy(Get(props, "GEOID")) then
      Get(item, "GEOID") == Get(props, "GEOID")
    else if Truthy(Get(item, "NAME")) && Truthy(Get(props, "name")) then
      Includes(Get(item, "NAME"), Get(props, "name"))
    else
      false
  }

  /** `data.findIndex(matches)`: the first index whose row matches, if any. */
  function FindIndex(data: seq<Record>, matches: Record -> bool): (r: Option<nat>)
    ensures r.Some? ==> r.value < |data| && matches(data[r.value])
    ensures r.Some? ==> forall j :: 0 <= j < r.value ==> !matches(data[j])
    ensures r.None? ==> forall j :: 0 <= j < |data| ==> !matches(data[j])
    decreases |data|
  {
    if data == [] then None
    else if matches(data[0]) then Some(0)
    else
      match FindIndex(data[1..], matches)
      case None => None
      case Some(i) => Some(i + 1)
  }

  /** `data.find(matches)`: the first matching row, if any. */
  function Find(data: seq<Record>, matches: Record -> bool): (r: Option<Record>)
    ensures r.Some? <==> exists j :: 0 <= j < |data| && matches(data[j])
    ensures r.Some? ==> matches(r.value) && exists j :: 0 <= j < |data| && data[j] == r.value
  {
    match FindIndex(data, matches)
    case None => None
    case Some(i) => Some(data[i])
  }

  /** The row the style/tooltip rule joins to a feature. */
  function LevelRow(data: seq<Record>, level: string, props: Record): Option<Record> {
    Find(data, item => LevelMatch(level, item, props))
  }

  /** The row the popup rule joins to a feature. */
  function PopupRow(data: seq<Record>, props: Record): Option<Record> {
    Find(data, item => GeoidOrNameMatch(item, props))
  }

  /** At a level other than state, county and zip no row is ever joined. */
  lemma OtherLevelsNeverMatch(data: seq<Record>, level: string, props: Record)
    requires level != "state" && level != "county" && level != "zip"
    ensures LevelRow(data, level, props) == None
  {
  }

  /** The first matching row wins: a row that matches, preceded only by rows that do not,
      is the one joined. */
  lemma {:induction false} FirstMatchWins(data: seq<Record>, matches: Record -> bool, k: nat)
    requires k < |data| && matches(data[k])
    requires forall j :: 0 <= j < k ==> !matches(data[j])
    ensures Find(data, matches) == Some(data[k])
  {
    var r := FindIndex(data, matches);
    assert r.Some? && r.value <= k;
  }

  /** When both sides carry a GEOID, a row whose NAME contains the feature's name but whose
      GEOID differs is not a popup match. */
  lemma GeoidOverridesName(item: Record, props: Record)
    requires Truthy(Get(item, "GEOID")) && Truthy(Get(props, "GEOID"))
    ensures GeoidOrNameMatch(item, props) <==> Get(item, "GEOID") == Get(props, "GEOID")
  {
  }
}
