/** The Census Data API client's pure logic: the request URL for a geography, the
    header-row-plus-data-rows table turned into records, and the fixed variable catalogue. */
module Census {
  import opened Wrappers
  import opened Strings
  import opened Js

  const API_BASE_URL := "https://api.census.gov/data"

  /** The dataset path. The year is not consulted: every year reads the 5-year ACS. */
  function GetDataset(year: int): string {
    "acs/acs5"
  }

  lemma DatasetIgnoresYear(y1: int, y2: int)
    ensures GetDataset(y1) == GetDataset(y2) == "acs/acs5"
  {
  }

  /** A region code passed as `regionCode?: string` is used only when truthy. */
  predicate HasCode(regionCode: Option<string>) {
    regionCode.Some? && regionCode.value != ""
  }

  const METRO_FOR := "for=metropolitan%20statistical%20area/" + "micropolitan%20statistical%20area:*"

  const ZCTA_FOR := "for=zip%20code%20" + "tabulation%20area:*"

  /** The `for`/`in` part of the query, chosen by geography type in the source's order. */
  function GeographyClause(geographyType: string, regionCode: Option<string>): string {
    if geographyType == "state" then "&for=state:*"
    else if geographyType == "county" && HasCode(regionCode) then "&for=county:*&in=state:" + regionCode.value
    else if geographyType == "county" then "&for=county:*"
    else if geographyType == "place" && HasCode(regionCode) then "&for=place:*&in=state:" + regionCode.value
    else if geographyType == "metro" then "&" + METRO_FOR
    else if geographyType == "zcta" then "&" + ZCTA_FOR
    else ""
  }

  /** Everything before the variable list. */
  function UrlPrefix(year: int): string {
    API_BASE_URL + "/" + IntToString(year) + "/" + GetDataset(year) + "?get="
  }

  /** `buildCensusUrl(year, variables, geographyType, regionCode)`. */
  function BuildCensusUrl(year: int, variables: seq<string>, geographyType: string, regionCode: Option<string>): string {
    UrlPrefix(year) + Join(["NAME"] + variables, ",") + GeographyClause(geographyType, regionCode)
  }

  /** The URL is the ACS 5-year endpoint for the year, asking for NAME and then the
      variables in the order given (reading the `get=` list back, split at commas, gives
      exactly that list when no variable id holds a comma), followed by the geography
      clause. */
  lemma {:induction false} CensusUrlLayout(year: int, variables: seq<string>, geographyType: string, regionCode: Option<string>)
    requires forall i :: 0 <= i < |variables| ==> ',' !in variables[i]
    ensures var url := BuildCensusUrl(year, variables, geographyType, regionCode);
      var clause := GeographyClause(geographyType, regionCode);
      var p := "https://api.census.gov/data/" + IntToString(year) + "/acs/acs5?get=";
      IsPrefix(p, url) &&
      |p| + |clause| <= |url| &&
      url[|url| - |clause|..] == clause &&
      Split(url[|p|..|url| - |clause|], ',') == ["NAME"] + variables
  {
    var xs := ["NAME"] + variables;
    var list := Join(xs, ",");
    var clause := GeographyClause(geographyType, regionCode);
    var p := UrlPrefix(year);
    assert p == "https://api.census.gov/data/" + IntToString(year) + "/acs/acs5?get=";
    ThreeParts(p, list, clause);
    forall i | 0 <= i < |xs| ensures ',' !in xs[i] {
      if i > 0 { assert xs[i] == variables[i - 1]; }
    }
    SplitJoin(xs, ',');
  }

  /** The parts of a concatenation `p + list + clause` can be cut back out of it. */
  lemma ThreeParts(p: string, list: string, clause: string)
    ensures var url := p + list + clause;
      IsPrefix(p, url) && |p| + |clause| <= |url| &&
      url[|p|..|url| - |clause|] == list && url[|url| - |clause|..] == clause
  {
    var url := p + list + clause;
    assert url[..|p|] == p;
    assert url[|p|..|url| - |clause|] == list;
    assert url[|url| - |clause|..] == clause;
  }

  /** At state level the clause is `&for=state:*`, whatever region code is passed. */
  lemma StateIgnoresRegionCode(year: int, variables: seq<string>, c1: Option<string>, c2: Option<string>)
    ensures BuildCensusUrl(year, variables, "state", c1) == BuildCensusUrl(year, variables, "state", c2)
    ensures GeographyClause("state", c1) == "&for=state:*"
  {
  }

  /** A state filter `&in=state:<code>` is added exactly for a county or place request
      with a truthy region code, and then the code ends the URL. */
  lemma RegionFilterPlacement(geographyType: string, regionCode: Option<string>)
    ensures var c := GeographyClause(geographyType, regionCode);
      (Contains(c, "&in=state:") <==> (geographyType in {"county", "place"} && HasCode(regionCode))) &&
      (geographyType in {"county", "place"} && HasCode(regionCode) ==>
         |regionCode.value| <= |c| && c[|c| - |regionCode.value|..] == regionCode.value)
  {
    if geographyType in {"county", "place"} && HasCode(regionCode) {
      RegionFilterWithCode(geographyType, regionCode.value);
    } else {
      NoRegionFilter(geographyType, regionCode);
    }
  }

  lemma RegionFilterWithCode(geographyType: string, code: string)
    requires geographyType in {"county", "place"} && code != ""
    ensures var c := GeographyClause(geographyType, Some(code));
      Contains(c, "&in=state:") && |code| <= |c| && c[|c| - |code|..] == code
  {
    var c := GeographyClause(geographyType, Some(code));
    var head := if geographyType == "county" then "&for=county:*" else "&for=place:*";
    assert c == head + "&in=state:" + code;
    ContainsAt(c, "&in=state:", |head|);
  }

  lemma NoRegionFilter(geographyType: string, regionCode: Option<string>)
    requires !(geographyType in {"county", "place"} && HasCode(regionCode))
    ensures !Contains(GeographyClause(geographyType, regionCode), "&in=state:")
  {
    if geographyType in {"state", "county"} {
      ForClauseHasNoFilter(geographyType);
      assert GeographyClause(geographyType, regionCode) == "&for=" + geographyType + ":*";
    } else if geographyType == "metro" {
      MetroClauseHasNoFilter();
    } else if geographyType == "zcta" {
      ZctaClauseHasNoFilter();
    } else {
      NotContainsLonger("", "&in=state:");
    }
  }

  /** A `&for=<type>:*` clause for a type without `&` holds no state filter; the state
      and county clauses are two of them. */
  lemma ForClauseHasNoFilter(geographyType: string)
    requires '&' !in geographyType
    ensures !Contains("&for=" + geographyType + ":*", "&in=state:")
  {
    var c := "&for=" + geographyType + ":*";
    assert c[1..] == "for=" + geographyType + ":*";
    assert '&' !in c[1..];
    NoStateFilter(c);
  }

  lemma ZctaClauseHasNoFilter()
    ensures !Contains("&" + ZCTA_FOR, "&in=state:")
  {
    var c := "&" + ZCTA_FOR;
    assert c[1..] == ZCTA_FOR;
    assert '&' !in "for=zip%20code%20";
    assert '&' !in "tabulation%20area:*";
    NoStateFilter(c);
  }

  lemma MetroClauseHasNoFilter()
    ensures !Contains("&" + METRO_FOR, "&in=state:")
  {
    var c := "&" + METRO_FOR;
    assert c[1..] == METRO_FOR;
    assert '&' !in "for=metropolitan%20statistical%20area/";
    assert '&' !in "micropolitan%20statistical%20area:*";
    NoStateFilter(c);
  }

  /** A clause with a single `&`, at its head and followed by `f`, holds no state filter. */
  lemma NoStateFilter(c: string)
    requires |c| >= 2 && c[0] == '&' && c[1] != 'i' && '&' !in c[1..]
    ensures !Contains(c, "&in=state:")
  {
    if Contains(c[1..], "&in=state:") {
      ContainsHead(c[1..], "&in=state:");
    }
  }

  /** Types other than state, county, place, metro and zcta (a tract, say) and a place
      without a region code get no `for` clause at all. */
  lemma UnlistedTypeHasNoClause(geographyType: string, regionCode: Option<string>)
    requires geographyType !in {"state", "county", "metro", "zcta"}
    requires geographyType == "place" ==> !HasCode(regionCode)
    ensures GeographyClause(geographyType, regionCode) == ""
  {
  }

  // ---------------------------------------------------------------------------------
  // Response processing

  /** `row[index]`; a row shorter than the header reads `undefined`. */
  function Cell(row: seq<Value>, index: nat): Value {
    if index < |row| then row[index] else Undefined
  }

  /** `if (value && !isNaN(Number(value))) value = Number(value)`. */
  function Coerce(v: Value): (r: Value)
    ensures Truthy(v) && ToNumber(v).Some? ==> r == Num(ToNumber(v).value)
    ensures !Truthy(v) || ToNumber(v).None? ==> r == v
  {
    if Truthy(v) && ToNumber(v).Some? then Num(ToNumber(v).value) else v
  }

  /** The record after the `forEach` over the first `n` headers: each header, as a property
      key, receives its coerced cell, a later header overwriting an earlier equal one. */
  function FillRecord(headers: seq<Value>, row: seq<Value>, n: nat): Record
    requires n <= |headers|
    decreases n
  {
    if n == 0 then map[]
    else FillRecord(headers, row, n - 1)[ToText(headers[n - 1]) := Coerce(Cell(row, n - 1))]
  }

  /** Header `j` is the last of the first `n` with its key. */
  predicate LastWithKey(headers: seq<Value>, n: nat, j: nat)
    requires j < n <= |headers|
  {
    forall j' :: j < j' < n ==> ToText(headers[j']) != ToText(headers[j])
  }

  /** Every header becomes a key and nothing else does. */
  lemma {:induction false} FillRecordKeys(headers: seq<Value>, row: seq<Value>, n: nat)
    requires n <= |headers|
    ensures forall k :: k in FillRecord(headers, row, n) <==> exists j :: 0 <= j < n && ToText(headers[j]) == k
    decreases n
  {
    if n > 0 {
      FillRecordKeys(headers, row, n - 1);
      var prev := FillRecord(headers, row, n - 1);
      forall k ensures k in FillRecord(headers, row, n) <==> exists j :: 0 <= j < n && ToText(headers[j]) == k {
        if k != ToText(headers[n - 1]) {
          if k in prev {
            var j :| 0 <= j < n - 1 && ToText(headers[j]) == k;
          }
        }
      }
    }
  }

  /** The value under a header's key is the coerced cell of the last header with that key. */
  lemma {:induction false} FillRecordValues(headers: seq<Value>, row: seq<Value>, n: nat, j: nat)
    requires j < n <= |headers| && LastWithKey(headers, n, j)
    ensures ToText(headers[j]) in FillRecord(headers, row, n)
    ensures FillRecord(headers, row, n)[ToText(headers[j])] == Coerce(Cell(row, j))
    decreases n
  {
    if j < n - 1 {
      assert ToText(headers[n - 1]) != ToText(headers[j]);
      assert LastWithKey(headers, n - 1, j);
      FillRecordValues(headers, row, n - 1, j);
    }
  }

  /** Adds `geoid`: state then county interpolated when both are truthy, else the state
      value itself when it is truthy; otherwise the record is left alone. */
  function WithGeoid(r: Record): Record {
    var state := Get(r, "state");
    var county := Get(r, "county");
    if Truthy(state) && Truthy(county) then r["geoid" := Str(ToText(state) + ToText(county))]
    else if Truthy(state) then r["geoid" := state]
    else r
  }

  /** One data row as a record. */
  function RowRecord(headers: seq<Value>, row: seq<Value>): Record {
    WithGeoid(FillRecord(headers, row, |headers|))
  }

  function RowRecords(headers: seq<Value>, rows: seq<seq<Value>>): (r: seq<Record>)
    ensures |r| == |rows|
    ensures forall i :: 0 <= i < |rows| ==> r[i] == RowRecord(headers, rows[i])
    decreases |rows|
  {
    if rows == [] then [] else [RowRecord(headers, rows[0])] + RowRecords(headers, rows[1..])
  }

  /** `processCensusResponse(data, variables)`; `None` is a null or undefined `data`. The
      `variables` argument is not consulted. */
  function ProcessCensusResponse(data: Option<seq<seq<Value>>>, variables: seq<string>): (r: seq<Record>)
    ensures data.None? || |data.value| <= 1 ==> r == []
    ensures data.Some? && |data.value| > 1 ==>
      |r| == |data.value| - 1 &&
      forall i :: 0 <= i < |r| ==> r[i] == RowRecord(data.value[0], data.value[i + 1])
  {
    if data.None? || |data.value| <= 1 then []
    else RowRecords(data.value[0], data.value[1..])
  }

  /** What a processed row holds: every header is a key, each cell coerced, the last of
      equal headers winning, plus `geoid` from the coerced state and county. */
  lemma {:induction false} RowRecordSpec(headers: seq<Value>, row: seq<Value>, j: nat)
    requires j < |headers| && LastWithKey(headers, |headers|, j)
    requires ToText(headers[j]) != "geoid" || !Truthy(Get(FillRecord(headers, row, |headers|), "state"))
    ensures ToText(headers[j]) in RowRecord(headers, row)
    ensures RowRecord(headers, row)[ToText(headers[j])] == Coerce(Cell(row, j))
  {
    FillRecordValues(headers, row, |headers|, j);
  }

  /** The `geoid` rule, stated on the coerced values. */
  lemma GeoidRule(r: Record)
    ensures var state := Get(r, "state");
      var county := Get(r, "county");
      var g := Get(WithGeoid(r), "geoid");
      (Truthy(state) && Truthy(county) ==> g == Str(ToText(state) + ToText(county))) &&
      (Truthy(state) && !Truthy(county) ==> g == state) &&
      (!Truthy(state) ==> WithGeoid(r) == r) &&
      (forall k :: k != "geoid" ==> Get(WithGeoid(r), k) == Get(r, k))
  {
  }

  /** Because `geoid` is built after numeric coercion, a state code "06" with county
      "037" yields the geoid "637", and a state alone yields the number 6. */
  lemma GeoidLosesLeadingZeros()
    ensures Get(RowRecord([Str("state"), Str("county")], [Str("06"), Str("037")]), "geoid") == Str("637")
    ensures Get(RowRecord([Str("state")], [Str("06")]), "geoid") == Num(6)
  {
    LeadingZeroLost();
    assert Trim("037") == "037";
    assert AllDigits("037");
    assert "037"[..2] == "03" && "03"[..1] == "0" && "0"[..0] == "";
    assert DigitsValue("037") == 37;
    assert NumberOf("037") == Some(37);
    assert NatToString(3) == "3" && NatToString(37) == "37";
  }

  // ---------------------------------------------------------------------------------
  // Percentages

  /** `calculatePercentage`: a zero (falsy) denominator gives 0; otherwise the ratio in
      percent, here over exact reals rather than floating point. */
  function CalculatePercentage(numerator: real, denominator: real): (r: real)
    ensures denominator == 0.0 ==> r == 0.0
    ensures denominator != 0.0 ==> r * denominator == numerator * 100.0
  {
    if denominator == 0.0 then 0.0 else (numerator / denominator) * 100.0
  }

  // ---------------------------------------------------------------------------------
  // Variable catalogue

  datatype Category =
    | Income | Education | Housing | Demographics | RaceEthnicity
    | Employment | Transportation | InternetAccess | EnergyPrices

  datatype Format = Percent | Currency | Number

  datatype CensusVariable = CensusVariable(id: string, name: string, description: string, category: Category, format: Option<Format>)

  /** The variables the dashboard highlights, in table order, one block per category. */
  const CENSUS_VARIABLES: seq<CensusVariable> := Flatten(BLOCKS)

  /** The table's blocks, in the order of `GetAllCategories()`. */
  const BLOCKS: seq<seq<CensusVariable>> := [
    INCOME_VARIABLES, EDUCATION_VARIABLES, HOUSING_VARIABLES, DEMOGRAPHICS_VARIABLES,
    RACE_ETHNICITY_VARIABLES, EMPLOYMENT_VARIABLES, TRANSPORTATION_VARIABLES, INTERNET_VARIABLES
  ]

  function Flatten(bs: seq<seq<CensusVariable>>): seq<CensusVariable>
    decreases |bs|
  {
    if bs == [] then [] else bs[0] + Flatten(bs[1..])
  }

  const INCOME_VARIABLES: seq<CensusVariable> := [
    CensusVariable("B19013_001E", "Median Household Income", "Median household income in the past 12 months", Income, Some(Currency)),
    CensusVariable("B19001_001E", "Household Income", "Total households with income data", Income, Some(Number)),
    CensusVariable("B19001_014E", "High Income Households", "Households with income $100,000 to $124,999", Income, Some(Number)),
    CensusVariable("B19001_002E", "Low Income Households", "Households with income less than $10,000", Income, Some(Number)),
    CensusVariable("B19083_001E", "Income Inequality (Gini)", "Gini Index of Income Inequality", Income, Some(Number))
  ]

  const EDUCATION_VARIABLES: seq<CensusVariable> := [
    CensusVariable("B15003_001E", "Total Population 25+", "Population 25 years and over", Education, Some(Number)),
    CensusVariable("B15003_022E", "Bachelor's Degree", "Population with Bachelor's degree", Education, Some(Number)),
    CensusVariable("B15003_023E", "Master's Degree", "Population with Master's degree", Education, Some(Number)),
    CensusVariable("B15003_025E", "Doctoral Degree", "Population with Doctorate degree", Education, Some(Number)),
    CensusVariable("B15003_017E", "High School Graduates", "Population with high school diploma or equivalent", Education, Some(Number))
  ]

  const HOUSING_VARIABLES: seq<CensusVariable> := [
    CensusVariable("B25077_001E", "Median Home Value", "Median value of owner-occupied housing units", Housing, Some(Currency)),
    CensusVariable("B25064_001E", "Median Gross Rent", "Median gross rent", Housing, Some(Currency)),
    CensusVariable("B25001_001E", "Total Housing Units", "Total housing units", Housing, Some(Number)),
    CensusVariable("B25003_002E", "Owner Occupied Units", "Owner occupied housing units", Housing, Some(Number)),
    CensusVariable("B25003_003E", "Renter Occupied Units", "Renter occupied housing units", Housing, Some(Number))
  ]

  const DEMOGRAPHICS_VARIABLES: seq<CensusVariable> := [
    CensusVariable("B01001_001E", "Total Population", "Total population", Demographics, Some(Number)),
    CensusVariable("B01001_002E", "Male Population", "Male population", Demographics, Some(Number)),
    CensusVariable("B01001_026E", "Female Population", "Female population", Demographics, Some(Number)),
    CensusVariable("B01002_001E", "Median Age", "Median age", Demographics, Some(Number))
  ]

  const RACE_ETHNICITY_VARIABLES: seq<CensusVariable> := [
    CensusVariable("B03002_003E", "White Population", "White alone population", RaceEthnicity, Some(Number)),
    CensusVariable("B03002_004E", "Black Population", "Black or African American alone population", RaceEthnicity, Some(Number)),
    CensusVariable("B03002_006E", "Asian Population", "Asian alone population", RaceEthnicity, Some(Number)),
    CensusVariable("B03002_012E", "Hispanic Population", "Hispanic or Latino population of any race", RaceEthnicity, Some(Number)),
    CensusVariable("B03002_005E", "Native American Population", "American Indian and Alaska Native alone population", RaceEthnicity, Some(Number))
  ]

  const EMPLOYMENT_VARIABLES: seq<CensusVariable> := [
    CensusVariable("B23025_001E", "Employment Status Population", "Population 16 years and over", Employment, Some(Number)),
    CensusVariable("B23025_002E", "Labor Force", "In labor force", Employment, Some(Number)),
    CensusVariable("B23025_004E", "Civilian Employed", "Civilian labor force employed", Employment, Some(Number)),
    CensusVariable("B23025_005E", "Civilian Unemployed", "Civilian labor force unemployed", Employment, Some(Number)),
    CensusVariable("B23025_007E", "Not in Labor Force", "Not in labor force", Employment, Some(Number))
  ]

  const TRANSPORTATION_VARIABLES: seq<CensusVariable> := [
    CensusVariable("B08301_001E", "Total Commuters", "Workers 16 years and over", Transportation, Some(Number)),
    CensusVariable("B08301_003E", "Drive Alone Commuters", "Car, truck, or van - drove alone", Transportation, Some(Number)),
    CensusVariable("B08301_004E", "Carpool Commuters", "Car, truck, or van - carpooled", Transportation, Some(Number)),
    CensusVariable("B08301_010E", "Public Transit Commuters", "Public transportation (excluding taxicab)", Transportation, Some(Number)),
    CensusVariable("B08301_019E", "Work From Home", "Worked from home", Transportation, Some(Number))
  ]

  const INTERNET_VARIABLES: seq<CensusVariable> := [
    CensusVariable("B28002_001E", "Total Households (Internet)", "Total households surveyed for internet access", InternetAccess, Some(Number)),
    CensusVariable("B28002_002E", "Households With Internet", "Households with an Internet subscription", InternetAccess, Some(Number)),
    CensusVariable("B28002_004E", "Broadband Households", "Households with a broadband Internet subscription", InternetAccess, Some(Number)),
    CensusVariable("B28002_013E", "No Internet Access", "Households without Internet access", InternetAccess, Some(Number)),
    CensusVariable("B28002_012E", "Cellular Data Only", "Households with cellular data plan only and no other type of Internet", InternetAccess, Some(Number))
  ]

  /** `getAllCategories()`: eight categories; `EnergyPrices` is a category of the type
      that is not offered. */
  function GetAllCategories(): seq<Category> {
    [Income, Education, Housing, Demographics, RaceEthnicity, Employment, Transportation, InternetAccess]
  }

  /** `a` appears in `b` in order, possibly with gaps. */
  predicate IsSubsequence<T(==)>(a: seq<T>, b: seq<T>)
    decreases |b|
  {
    a == [] || (b != [] && if a[0] == b[0] then IsSubsequence(a[1..], b[1..]) else IsSubsequence(a, b[1..]))
  }

  /** `filter(variable => variable.category === category)` over any table. */
  function FilterCategory(vs: seq<CensusVariable>, category: Category): seq<CensusVariable>
    decreases |vs|
  {
    if vs == [] then []
    else if vs[0].category == category then [vs[0]] + FilterCategory(vs[1..], category)
    else FilterCategory(vs[1..], category)
  }

  /** The filter keeps exactly the entries of the category, in their order. */
  lemma {:induction false} FilterCategorySpec(vs: seq<CensusVariable>, category: Category)
    ensures forall v :: v in FilterCategory(vs, category) <==> v in vs && v.category == category
    ensures IsSubsequence(FilterCategory(vs, category), vs)
    decreases |vs|
  {
    if vs != [] {
      FilterCategorySpec(vs[1..], category);
      var r := FilterCategory(vs, category);
      if vs[0].category == category {
        assert r[0] == vs[0] && r[1..] == FilterCategory(vs[1..], category);
      }
      assert vs == [vs[0]] + vs[1..];
    }
  }

  /** `getVariablesByCategory(category)`: exactly the table's entries of that category, in
      table order. */
  function GetVariablesByCategory(category: Category): (r: seq<CensusVariable>)
    ensures forall v :: v in r <==> v in CENSUS_VARIABLES && v.category == category
    ensures IsSubsequence(r, CENSUS_VARIABLES)
  {
    FilterCategorySpec(CENSUS_VARIABLES, category);
    FilterCategory(CENSUS_VARIABLES, category)
  }

  /** The index of the first entry with the id, if any. */
  function FindIndexById(vs: seq<CensusVariable>, id: string): (r: Option<nat>)
    ensures r.Some? ==> r.value < |vs| && vs[r.value].id == id && forall j :: 0 <= j < r.value ==> vs[j].id != id
    ensures r.None? ==> forall j :: 0 <= j < |vs| ==> vs[j].id != id
    decreases |vs|
  {
    if vs == [] then None
    else if vs[0].id == id then Some(0)
    else match FindIndexById(vs[1..], id)
      case None => None
      case Some(k) => Some(k + 1)
  }

  /** `getVariableById(id)`: the first entry with that id, or `undefined`. */
  function GetVariableById(id: string): (r: Option<CensusVariable>)
    ensures r.Some? ==> r.value in CENSUS_VARIABLES && r.value.id == id
    ensures r.None? <==> forall v :: v in CENSUS_VARIABLES ==> v.id != id
  {
    match FindIndexById(CENSUS_VARIABLES, id)
    case None => None
    case Some(k) => Some(CENSUS_VARIABLES[k])
  }

  lemma {:induction false} FilterAppend(a: seq<CensusVariable>, b: seq<CensusVariable>, category: Category)
    ensures FilterCategory(a + b, category) == FilterCategory(a, category) + FilterCategory(b, category)
    decreases |a|
  {
    if a == [] {
      assert a + b == b;
    } else {
      assert (a + b)[0] == a[0];
      assert (a + b)[1..] == a[1..] + b;
      FilterAppend(a[1..], b, category);
    }
  }

  /** Every entry of the block has the category. */
  predicate OfCategory(block: seq<CensusVariable>, category: Category) {
    forall i :: 0 <= i < |block| ==> block[i].category == category
  }

  lemma {:induction false} FilterAll(vs: seq<CensusVariable>, category: Category)
    requires OfCategory(vs, category)
    ensures FilterCategory(vs, category) == vs
    decreases |vs|
  {
    if vs != [] {
      FilterAll(vs[1..], category);
    }
  }

  lemma {:induction false} FilterNone(vs: seq<CensusVariable>, other: Category, category: Category)
    requires OfCategory(vs, other) && other != category
    ensures FilterCategory(vs, category) == []
    decreases |vs|
  {
    if vs != [] {
      FilterNone(vs[1..], other, category);
    }
  }

  /** Filtering blocks of distinct categories picks out the one block of the category. */
  lemma {:induction false} FilterFlatten(bs: seq<seq<CensusVariable>>, cs: seq<Category>, category: Category)
    requires |bs| == |cs|
    requires forall i, j :: 0 <= i < j < |cs| ==> cs[i] != cs[j]
    requires forall i :: 0 <= i < |bs| ==> OfCategory(bs[i], cs[i])
    ensures forall i :: 0 <= i < |cs| && cs[i] == category ==> FilterCategory(Flatten(bs), category) == bs[i]
    ensures category !in cs ==> FilterCategory(Flatten(bs), category) == []
    decreases |bs|
  {
    if bs != [] {
      FilterAppend(bs[0], Flatten(bs[1..]), category);
      FilterFlatten(bs[1..], cs[1..], category);
      if cs[0] == category {
        FilterAll(bs[0], category);
        assert category !in cs[1..] by {
          forall i | 0 <= i < |cs[1..]| ensures cs[1..][i] != category {
            assert cs[1..][i] == cs[i + 1];
          }
        }
        forall i | 0 <= i < |cs| && cs[i] == category ensures i == 0 { }
      } else {
        FilterNone(bs[0], cs[0], category);
        forall i | 0 <= i < |cs| && cs[i] == category
          ensures FilterCategory(Flatten(bs), category) == bs[i]
        {
          assert cs[1..][i - 1] == cs[i];
        }
        assert category in cs <==> category in cs[1..];
      }
    }
  }

  lemma IncomeBlock() ensures OfCategory(INCOME_VARIABLES, Income) { }
  lemma EducationBlock() ensures OfCategory(EDUCATION_VARIABLES, Education) { }
  lemma HousingBlock() ensures OfCategory(HOUSING_VARIABLES, Housing) { }
  lemma DemographicsBlock() ensures OfCategory(DEMOGRAPHICS_VARIABLES, Demographics) { }
  lemma RaceEthnicityBlock() ensures OfCategory(RACE_ETHNICITY_VARIABLES, RaceEthnicity) { }
  lemma EmploymentBlock() ensures OfCategory(EMPLOYMENT_VARIABLES, Employment) { }
  lemma TransportationBlock() ensures OfCategory(TRANSPORTATION_VARIABLES, Transportation) { }
  lemma InternetBlock() ensures OfCategory(INTERNET_VARIABLES, InternetAccess) { }

  /** The table block that holds a category's variables; empty for `EnergyPrices`. */
  function Block(category: Category): seq<CensusVariable> {
    match category
    case Income => INCOME_VARIABLES
    case Education => EDUCATION_VARIABLES
    case Housing => HOUSING_VARIABLES
    case Demographics => DEMOGRAPHICS_VARIABLES
    case RaceEthnicity => RACE_ETHNICITY_VARIABLES
    case Employment => EMPLOYMENT_VARIABLES
    case Transportation => TRANSPORTATION_VARIABLES
    case InternetAccess => INTERNET_VARIABLES
    case EnergyPrices => []
  }

  /** A category's variables are exactly its block of the table: five per category except
      four for Demographics, and none for `EnergyPrices`. */
  lemma VariablesByCategoryAreItsBlock(category: Category)
    ensures GetVariablesByCategory(category) == Block(category)
    ensures |GetVariablesByCategory(category)| == if category == Demographics then 4 else if category == EnergyPrices then 0 else 5
  {
    var cs := GetAllCategories();
    IncomeBlock(); EducationBlock(); HousingBlock(); DemographicsBlock();
    RaceEthnicityBlock(); EmploymentBlock(); TransportationBlock(); InternetBlock();
    FilterFlatten(BLOCKS, cs, category);
    match category
    case Income => assert cs[0] == category;
    case Education => assert cs[1] == category;
    case Housing => assert cs[2] == category;
    case Demographics => assert cs[3] == category;
    case RaceEthnicity => assert cs[4] == category;
    case Employment => assert cs[5] == category;
    case Transportation => assert cs[6] == category;
    case InternetAccess => assert cs[7] == category;
    case EnergyPrices => assert category !in cs;
  }

  /** The categories offered are exactly those with variables in the table, each offered
      once. */
  lemma CategoriesAreThoseWithVariables(category: Category)
    ensures category in GetAllCategories() <==> GetVariablesByCategory(category) != []
    ensures forall i, j :: 0 <= i < j < |GetAllCategories()| ==> GetAllCategories()[i] != GetAllCategories()[j]
  {
    VariablesByCategoryAreItsBlock(category);
    var cs := GetAllCategories();
    if category == EnergyPrices {
      assert category !in cs;
    } else {
      assert |Block(category)| > 0;
      assert category in cs;
    }
    RanksArePositions();
  }

  lemma RanksArePositions()
    ensures forall i :: 0 <= i < |GetAllCategories()| ==> Rank(GetAllCategories()[i]) == i
  {
  }

  /** A category's position in `getAllCategories()`; 8 for the one not offered. */
  function Rank(category: Category): nat {
    match category
    case Income => 0
    case Education => 1
    case Housing => 2
    case Demographics => 3
    case RaceEthnicity => 4
    case Employment => 5
    case Transportation => 6
    case InternetAccess => 7
    case EnergyPrices => 8
  }
}
