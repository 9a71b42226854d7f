/** The choropleth style of a map feature (`getRegionStyle`): the feature's row is found by
    the level rule, its value for the selected variable is bucketed into one of five fill
    colours, and a missing or zero value gets the "no data" grey. Only the fill colour ever
    varies. */
module MapStyles {
  import opened Wrappers
  import opened Js
  import opened FeatureJoin
  import Strings

  /** A Leaflet path style. */
  datatype Style = Style(fillColor: string, weight: int, opacity: int, color: string, fillOpacity: real)

  const NO_DATA_COLOR := "#dddddd"
  /** The lowest bucket's colour, which is also the colour of every feature when there is no
      data or no variable selected. */
  const BASE_COLOR := "#b3e5fc"

  /** The four thresholds, highest first; a value strictly above one of them reaches that
      bucket. */
  const THRESHOLDS: seq<int> := [100000, 75000, 50000, 25000]

  /** Bucket colours indexed by rank: rank 0 is the lowest bucket, rank 4 the highest. */
  const PALETTE: seq<string> := [BASE_COLOR, "#6dcdb8", "#39a0ab", "#177e89", "#084c61"]

  /** The style every feature shares apart from its fill colour. */
  function StyleWithFill(fillColor: string): (s: Style)
    ensures s.fillColor == fillColor
    ensures s.weight == 1 && s.opacity == 1 && s.color == "white" && s.fillOpacity == 0.7
  {
    Style(fillColor, 1, 1, "white", 0.7)
  }

  /** The ternary threshold chain of `getColor` on a number. */
  function BucketColor(n: int): string {
    if n > 100000 then "#084c61"
    else if n > 75000 then "#177e89"
    else if n > 50000 then "#39a0ab"
    else if n > 25000 then "#6dcdb8"
    else BASE_COLOR
  }

  /** How many thresholds a number strictly exceeds. */
  function Rank(ts: seq<int>, n: int): (r: nat)
    ensures r <= |ts|
    decreases |ts|
  {
    if ts == [] then 0 else (if n > ts[0] then 1 else 0) + Rank(ts[1..], n)
  }

  /** `getColor(val)`: falsy values (0, `""`, `undefined`, `null`) get the no-data grey; any
      other value is compared after conversion to a number, and a value that is not a number
      fails every comparison and lands in the lowest bucket. */
  function GetColor(v: Value): string {
    if !Truthy(v) then NO_DATA_COLOR
    else
      match ToNumber(v)
      case None => BASE_COLOR
      case Some(n) => BucketColor(n)
  }

  /** The style function `getRegionStyle(data, variable, level)` applied to a feature with
      these properties. An empty data array is truthy, so it is not "no data". */
  function RegionStyle(data: Option<seq<Record>>, variable: Option<string>, level: string, props: Record): (s: Style)
    ensures s.weight == 1 && s.opacity == 1 && s.color == "white" && s.fillOpacity == 0.7
    ensures NoSelection(data, variable) ==> s.fillColor == BASE_COLOR
    ensures !NoSelection(data, variable) && LevelRow(data.value, level, props).None? ==> s.fillColor == NO_DATA_COLOR
    ensures !NoSelection(data, variable) && LevelRow(data.value, level, props).Some? ==>
      s.fillColor == GetColor(Get(LevelRow(data.value, level, props).value, variable.value))
  {
    if NoSelection(data, variable) then StyleWithFill(BASE_COLOR)
    else
      var value := match LevelRow(data.value, level, props)
        case Some(row) => Get(row, variable.value)
        case None => Num(0);
      StyleWithFill(GetColor(value))
  }

  /** The threshold chain picks the palette entry of the number's rank. */
  lemma BucketColorIsRank(n: int)
    ensures BucketColor(n) == PALETTE[Rank(THRESHOLDS, n)]
  {
    var t := THRESHOLDS;
    assert t[1..] == [75000, 50000, 25000] && t[1..][1..] == [50000, 25000] && t[1..][1..][1..] == [25000];
  }

  /** Rank over thresholds sorted highest first is monotone. */
  lemma {:induction false} RankMonotone(ts: seq<int>, a: int, b: int)
    requires a <= b
    ensures Rank(ts, a) <= Rank(ts, b)
    decreases |ts|
  {
    if ts != [] {
      RankMonotone(ts[1..], a, b);
    }
  }

  /** Bucketing is monotone: for numbers a <= b, a's colour is never a higher bucket than
      b's. */
  lemma ColorMonotone(a: int, b: int)
    requires a <= b
    ensures BucketColor(a) == PALETTE[Rank(THRESHOLDS, a)] && BucketColor(b) == PALETTE[Rank(THRESHOLDS, b)]
    ensures Rank(THRESHOLDS, a) <= Rank(THRESHOLDS, b)
  {
    BucketColorIsRank(a);
    BucketColorIsRank(b);
    RankMonotone(THRESHOLDS, a, b);
  }

  /** The comparisons are strict: exactly 25000, and every negative number, land in the
      lowest bucket, and exactly 100000 is not in the highest. */
  lemma ThresholdsAreStrict(n: int)
    requires n < 0
    ensures BucketColor(25000) == BASE_COLOR && BucketColor(n) == BASE_COLOR
    ensures BucketColor(25001) == "#6dcdb8" && BucketColor(100000) == "#177e89"
  {
  }

  /** The text "0" is truthy, so it is bucketed (lowest) rather than shown as no data; the
      number 0 is no data. */
  lemma ZeroTextIsNotNoData()
    ensures GetColor(Str("0")) == BASE_COLOR && GetColor(Num(0)) == NO_DATA_COLOR
  {
    assert Strings.Trim("0") == "0";
  }

  /** With no data or no variable, every feature gets the same style. */
  lemma NoSelectionIsUniform(data: Option<seq<Record>>, variable: Option<string>, level: string, p1: Record, p2: Record)
    requires NoSelection(data, variable)
    ensures RegionStyle(data, variable, level, p1) == RegionStyle(data, variable, level, p2) == StyleWithFill(BASE_COLOR)
  {
  }

  /** Two features that differ in style differ only in fill colour. */
  lemma OnlyFillVaries(data: Option<seq<Record>>, variable: Option<string>, level: string, p1: Record, p2: Record)
    ensures RegionStyle(data, variable, level, p1) == StyleWithFill(RegionStyle(data, variable, level, p1).fillColor)
    ensures RegionStyle(data, variable, level, p1).fillColor == RegionStyle(data, variable, level, p2).fillColor ==>
      RegionStyle(data, variable, level, p1) == RegionStyle(data, variable, level, p2)
  {
  }

  /** The style of the object `{}`, whose `properties` is undefined, as written: `find` reads
      `feature.properties.name` (or `.ZCTA5CE10`) as soon as a row with a truthy NAME is
      tried at level state, county or zip, which throws a TypeError. */
  function EmptyObjectStyleAsWritten(data: Option<seq<Record>>, variable: Option<string>, level: string): (r: Result<Style>)
    ensures NoSelection(data, variable) ==> r == Ok(StyleWithFill(BASE_COLOR))
    ensures r.Err? <==> (!NoSelection(data, variable) && (level == "state" || level == "county" || level == "zip") &&
                         exists j :: 0 <= j < |data.value| && Truthy(Get(data.value[j], "NAME")))
  {
    if NoSelection(data, variable) then Ok(StyleWithFill(BASE_COLOR))
    else if (level == "state" || level == "county" || level == "zip") &&
      Find(data.value, item => Truthy(Get(item, "NAME"))).Some? then
      Err("TypeError: Cannot read properties of undefined")
    else Ok(StyleWithFill(NO_DATA_COLOR))
  }

  /** A state row with a NAME is enough to make the as-written `{}` style throw. */
  lemma EmptyObjectStyleThrows()
    ensures EmptyObjectStyleAsWritten(Some([map["NAME" := Str("California")]]), Some("B19013_001E"), "state").Err?
  {
    var row: Record := map["NAME" := Str("California")];
    assert Truthy(Get([row][0], "NAME"));
  }

  /** The default path style as evidently intended: the style of a feature without
      properties, which never throws; no row can match it, so it is the base colour without
      a selection and the no-data grey with one. */
  function DefaultStyle(data: Option<seq<Record>>, variable: Option<string>, level: string): (s: Style)
    ensures s == RegionStyle(data, variable, level, map[])
    ensures s.fillColor == if NoSelection(data, variable) then BASE_COLOR else NO_DATA_COLOR
  {
    if NoSelection(data, variable) then RegionStyle(data, variable, level, map[])
    else
      NothingMatchesNoProperties(data.value, level);
      RegionStyle(data, variable, level, map[])
  }

  /** A feature with no properties is never joined to a row. */
  lemma NothingMatchesNoProperties(data: seq<Record>, level: string)
    ensures LevelRow(data, level, map[]) == None
  {
    var props: Record := map[];
    assert !Truthy(Get(props, "name")) && !Truthy(Get(props, "ZCTA5CE10"));
    forall j | 0 <= j < |data| ensures !LevelMatch(level, data[j], props) { }
  }
}
