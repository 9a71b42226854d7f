/** The geography breadcrumb over the map: "USA", then the state part of the selected
    region's id below state level, then its county part at zip level; each crumb selects its
    region at its level. */
module Breadcrumb {
  import opened Strings
  import opened Wrappers
  import opened Js

  /** A crumb: its text and the (region, level) its click selects. */
  datatype Crumb = Crumb(text: Value, region: Value, level: string)

  const USA := Crumb(Str("USA"), Str(""), "state")

  /** `region.split('-')[i]`: the piece, or `undefined` past the last one. */
  function DashPart(region: string, i: nat): Value {
    var pieces := Split(region, '-');
    if i < |pieces| then Str(pieces[i]) else Undefined
  }

  /** The crumbs shown for the selected region at the current level: none without a
      (non-empty) selection, otherwise "USA" first, and one crumb at state level, three at
      zip level and two at any other level. */
  function Crumbs(selectedRegion: Option<string>, level: string): (r: seq<Crumb>)
    ensures selectedRegion.None? || selectedRegion.value == "" ==> r == []
    ensures selectedRegion.Some? && selectedRegion.value != "" ==>
      |r| == (if level == "state" then 1 else if level == "zip" then 3 else 2) && r[0] == USA
    ensures selectedRegion.Some? && selectedRegion.value != "" && level != "state" ==>
      r[1] == Crumb(DashPart(selectedRegion.value, 0), DashPart(selectedRegion.value, 0), "state")
    ensures selectedRegion.Some? && selectedRegion.value != "" && level == "zip" ==>
      r[2] == Crumb(DashPart(selectedRegion.value, 1), DashPart(selectedRegion.value, 1), "county")
  {
    if selectedRegion.None? || selectedRegion.value == "" then []
    else
      var region := selectedRegion.value;
      [USA] +
      (if level != "state" then [Crumb(DashPart(region, 0), DashPart(region, 0), "state")] else []) +
      (if level == "zip" then [Crumb(DashPart(region, 1), DashPart(region, 1), "county")] else [])
  }

  /** For a region id "state-county" or "state-county-...", the crumbs at zip level lead
      back to exactly that state and that county. */
  lemma CrumbsRecoverParts(state: string, tail: string)
    requires '-' !in state
    ensures Crumbs(Some(state + "-" + tail), "zip") ==
      [USA, Crumb(Str(state), Str(state), "state"),
       Crumb(Str(Split(tail, '-')[0]), Str(Split(tail, '-')[0]), "county")]
  {
    assert state + "-" + tail == state + ['-'] + tail;
    SplitAtSep(state, tail, '-');
  }

  /** Below state level, at every level, the second crumb shows and selects the state part
      of a `state-...` region id. */
  lemma StateCrumbAtEveryLevel(state: string, tail: string, level: string)
    requires '-' !in state && level != "state"
    ensures Crumbs(Some(state + "-" + tail), level)[1] == Crumb(Str(state), Str(state), "state")
  {
    assert state + "-" + tail == state + ['-'] + tail;
    SplitAtSep(state, tail, '-');
  }

  /** A region id without a dash is its own state crumb, at every level below state. */
  lemma NoDashIsState(region: string, level: string)
    requires region != "" && '-' !in region && level != "state"
    ensures Crumbs(Some(region), level)[1] == Crumb(Str(region), Str(region), "state")
  {
    SplitNoSep(region, '-');
  }

  /** A zip-level region id without a dash leaves the county crumb with no region: its
      click selects `undefined` at county level. */
  lemma NoDashNoCounty(region: string)
    requires region != "" && '-' !in region
    ensures Crumbs(Some(region), "zip")[1] == Crumb(Str(region), Str(region), "state")
    ensures Crumbs(Some(region), "zip")[2] == Crumb(Undefined, Undefined, "county")
  {
    SplitNoSep(region, '-');
  }
}
