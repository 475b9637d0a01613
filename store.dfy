/**
 * The application's state container (store/useStore.ts): one record of fields that
 * the actions overwrite. Each action is a method whose frame names exactly the fields
 * it replaces, so every other field is unchanged; the new values are built by the
 * pure functions below, whose properties are proved as lemmas.
 */
module Store {

  import opened Wrappers
  import opened Seqs
  import opened Types
  import opened ColorRules

  /** Fifteen days in milliseconds: the initial window reaches this far either side of today. */
  const FifteenDays: int := 15 * 24 * 60 * 60 * 1000

  /** The rules of the built-in data source: below 10, at least 10, at least 25. */
  const InitialColorRules: seq<ColorRule> := [
    ColorRule("1", "temperature_2m", Lt, 10.0, "#ff4d4f"),
    ColorRule("2", "temperature_2m", Ge, 10.0, "#1890ff"),
    ColorRule("3", "temperature_2m", Ge, 25.0, "#52c41a")
  ]

  const OpenMeteo: DataSource := DataSource("open-meteo", "Open-Meteo Weather", ["temperature_2m"], InitialColorRules)

  /**
   * The third initial rule (`>= 25`) can never decide a colour: every finite value is
   * caught by the first (`< 10`) or the second (`>= 10`) rule, and NaN by none.
   */
  lemma ThirdInitialRuleUnreachable(value: Number)
    ensures FirstMatch(value, InitialColorRules) != Some(2)
    ensures Classify(value, InitialColorRules) != InitialColorRules[2].color
  {
  }

  /** The polygons whose id differs from `id`, in their original order. */
  function WithoutPolygon(polygons: seq<Polygon>, id: string): (r: seq<Polygon>)
    ensures |r| <= |polygons|
    ensures forall i :: 0 <= i < |r| ==> r[i] in polygons && r[i].id != id
    ensures forall i :: 0 <= i < |polygons| && polygons[i].id != id ==> polygons[i] in r
  {
    Filter(polygons, (p: Polygon) => p.id != id)
  }

  /**
   * Removal keeps the survivors in their original order: removing from a concatenation
   * is removing from each part and concatenating the results.
   */
  lemma WithoutPolygonAppend(polygons: seq<Polygon>, more: seq<Polygon>, id: string)
    ensures WithoutPolygon(polygons + more, id) == WithoutPolygon(polygons, id) + WithoutPolygon(more, id)
  {
    FilterAppend(polygons, more, (p: Polygon) => p.id != id);
  }

  /** Removing an id that is not present leaves the list as it was. */
  lemma WithoutAbsentPolygon(polygons: seq<Polygon>, id: string)
    requires forall i :: 0 <= i < |polygons| ==> polygons[i].id != id
    ensures WithoutPolygon(polygons, id) == polygons
  {
    FilterKeepsAll(polygons, (p: Polygon) => p.id != id);
  }

  /** Removing a freshly appended polygon by its id undoes the append. */
  lemma RemoveAfterAdd(polygons: seq<Polygon>, polygon: Polygon)
    requires forall i :: 0 <= i < |polygons| ==> polygons[i].id != polygon.id
    ensures WithoutPolygon(polygons + [polygon], polygon.id) == polygons
  {
    var keep := (p: Polygon) => p.id != polygon.id;
    FilterAppend(polygons, [polygon], keep);
    FilterKeepsAll(polygons, keep);
  }

  /** `ds.id === id ? change(ds) : ds` applied to every data source. */
  function MapMatching(dataSources: seq<DataSource>, id: string, change: DataSource -> DataSource): seq<DataSource>
  {
    seq(|dataSources|, i requires 0 <= i < |dataSources| =>
      if dataSources[i].id == id then change(dataSources[i]) else dataSources[i])
  }

  /** The fields a `Partial<DataSource>` may carry; an absent field leaves the source's own. */
  datatype DataSourcePatch = DataSourcePatch(
    id: Option<string>,
    name: Option<string>,
    fields: Option<seq<string>>,
    colorRules: Option<seq<ColorRule>>)

  /** `{ ...ds, ...patch }`. */
  function Merge(ds: DataSource, patch: DataSourcePatch): (r: DataSource)
    ensures r.id == (if patch.id.Some? then patch.id.value else ds.id)
    ensures r.name == (if patch.name.Some? then patch.name.value else ds.name)
    ensures r.fields == (if patch.fields.Some? then patch.fields.value else ds.fields)
    ensures r.colorRules == (if patch.colorRules.Some? then patch.colorRules.value else ds.colorRules)
  {
    ds.(id := patch.id.GetOr(ds.id), name := patch.name.GetOr(ds.name),
        fields := patch.fields.GetOr(ds.fields), colorRules := patch.colorRules.GetOr(ds.colorRules))
  }

  /** Merging the same patch twice is merging it once, and the empty patch changes nothing. */
  lemma MergeIdempotent(ds: DataSource, patch: DataSourcePatch)
    ensures Merge(Merge(ds, patch), patch) == Merge(ds, patch)
    ensures Merge(ds, DataSourcePatch(None, None, None, None)) == ds
  {
  }

  /** `updateDataSource`'s new list: the patch merged into every source with that id. */
  function WithUpdate(dataSources: seq<DataSource>, id: string, patch: DataSourcePatch): (r: seq<DataSource>)
    ensures |r| == |dataSources|
    ensures forall i :: 0 <= i < |dataSources| && dataSources[i].id == id ==> r[i] == Merge(dataSources[i], patch)
    ensures forall i :: 0 <= i < |dataSources| && dataSources[i].id != id ==> r[i] == dataSources[i]
  {
    MapMatching(dataSources, id, (ds: DataSource) => Merge(ds, patch))
  }

  /** `addColorRule`'s new list: `rule` appended to the rules of every source with that id. */
  function WithRuleAdded(dataSources: seq<DataSource>, dataSourceId: string, rule: ColorRule): (r: seq<DataSource>)
    ensures |r| == |dataSources|
    ensures forall i :: 0 <= i < |dataSources| && dataSources[i].id == dataSourceId ==>
      r[i].colorRules == dataSources[i].colorRules + [rule] &&
      r[i].id == dataSources[i].id && r[i].name == dataSources[i].name && r[i].fields == dataSources[i].fields
    ensures forall i :: 0 <= i < |dataSources| && dataSources[i].id != dataSourceId ==> r[i] == dataSources[i]
  {
    MapMatching(dataSources, dataSourceId, (ds: DataSource) => ds.(colorRules := ds.colorRules + [rule]))
  }

  /** The rules whose id differs from `ruleId`, in their original order. */
  function RulesWithout(rules: seq<ColorRule>, ruleId: string): seq<ColorRule>
  {
    Filter(rules, (r: ColorRule) => r.id != ruleId)
  }

  /** `removeColorRule`'s new list: rules with `ruleId` dropped from every source with that id. */
  function WithRuleRemoved(dataSources: seq<DataSource>, dataSourceId: string, ruleId: string): (r: seq<DataSource>)
    ensures |r| == |dataSources|
    ensures forall i :: 0 <= i < |dataSources| && dataSources[i].id == dataSourceId ==>
      r[i].colorRules == RulesWithout(dataSources[i].colorRules, ruleId) &&
      r[i].id == dataSources[i].id && r[i].name == dataSources[i].name && r[i].fields == dataSources[i].fields
    ensures forall i :: 0 <= i < |dataSources| && dataSources[i].id != dataSourceId ==> r[i] == dataSources[i]
  {
    MapMatching(dataSources, dataSourceId, (ds: DataSource) => ds.(colorRules := RulesWithout(ds.colorRules, ruleId)))
  }

  /** The rules left after removal are exactly the ones with another id, and no more than before. */
  lemma RulesWithoutExact(rules: seq<ColorRule>, ruleId: string)
    ensures |RulesWithout(rules, ruleId)| <= |rules|
    ensures forall r :: r in RulesWithout(rules, ruleId) <==> r in rules && r.id != ruleId
  {
  }

  /**
   * Rule removal keeps the remaining rules in their declaration order, which decides
   * which rule is the first match.
   */
  lemma RulesWithoutAppend(rules: seq<ColorRule>, more: seq<ColorRule>, ruleId: string)
    ensures RulesWithout(rules + more, ruleId) == RulesWithout(rules, ruleId) + RulesWithout(more, ruleId)
  {
    FilterAppend(rules, more, (r: ColorRule) => r.id != ruleId);
  }

  /**
   * Adding a rule and then removing it by its id restores the data sources, provided
   * the matching sources held no rule with that id before.
   */
  lemma {:induction false} RemoveRuleAfterAdd(dataSources: seq<DataSource>, dataSourceId: string, rule: ColorRule)
    requires forall i :: 0 <= i < |dataSources| && dataSources[i].id == dataSourceId ==>
               forall j :: 0 <= j < |dataSources[i].colorRules| ==> dataSources[i].colorRules[j].id != rule.id
    ensures WithRuleRemoved(WithRuleAdded(dataSources, dataSourceId, rule), dataSourceId, rule.id) == dataSources
  {
    var added := WithRuleAdded(dataSources, dataSourceId, rule);
    var restored := WithRuleRemoved(added, dataSourceId, rule.id);
    var keep := (r: ColorRule) => r.id != rule.id;
    forall i | 0 <= i < |dataSources| ensures restored[i] == dataSources[i] {
      if dataSources[i].id == dataSourceId {
        var rules := dataSources[i].colorRules;
        FilterAppend(rules, [rule], keep);
        FilterKeepsAll(rules, keep);
        assert Filter([rule], keep) == [];
      }
    }
  }

  /** The shared store: every field of the source's state record, updated in place by the actions. */
  class AppStore {
    var timeRange: TimeRange
    var isRangeMode: bool
    var selectedHour: int
    var mapCenter: LatLng
    var isDrawing: bool
    var currentDrawingPoints: seq<LatLng>
    var polygons: seq<Polygon>
    var selectedPolygon: Option<string>
    var dataSources: seq<DataSource>
    var selectedDataSource: string
    var polygonData: seq<PolygonData>

    /** The initial state, for the current instant `today` (milliseconds). */
    constructor (today: int)
      ensures timeRange == TimeRange(today - FifteenDays, today + FifteenDays)
      ensures !isRangeMode && selectedHour == today
      ensures mapCenter == (40.7128, -74.006)
      ensures !isDrawing && currentDrawingPoints == []
      ensures polygons == [] && selectedPolygon == None
      ensures dataSources == [OpenMeteo] && selectedDataSource == "open-meteo"
      ensures exists i :: 0 <= i < |dataSources| && dataSources[i].id == selectedDataSource
      ensures polygonData == []
    {
      timeRange := TimeRange(today - FifteenDays, today + FifteenDays);
      isRangeMode := false;
      selectedHour := today;
      mapCenter := (40.7128, -74.006);
      isDrawing := false;
      currentDrawingPoints := [];
      polygons := [];
      selectedPolygon := None;
      dataSources := [OpenMeteo];
      selectedDataSource := "open-meteo";
      polygonData := [];
      new;
      assert dataSources[0].id == selectedDataSource;
    }

    method SetTimeRange(range: TimeRange)
      modifies this`timeRange
      ensures timeRange == range
    {
      timeRange := range;
    }

    method SetIsRangeMode(mode: bool)
      modifies this`isRangeMode
      ensures isRangeMode == mode
    {
      isRangeMode := mode;
    }

    method SetSelectedHour(hour: int)
      modifies this`selectedHour
      ensures selectedHour == hour
    {
      selectedHour := hour;
    }

    method SetMapCenter(center: LatLng)
      modifies this`mapCenter
      ensures mapCenter == center
    {
      mapCenter := center;
    }

    method SetIsDrawing(drawing: bool)
      modifies this`isDrawing
      ensures isDrawing == drawing
    {
      isDrawing := drawing;
    }

    method SetCurrentDrawingPoints(points: seq<LatLng>)
      modifies this`currentDrawingPoints
      ensures currentDrawingPoints == points
    {
      currentDrawingPoints := points;
    }

    /** Appends the polygon after all existing ones. */
    method AddPolygon(polygon: Polygon)
      modifies this`polygons
      ensures polygons == old(polygons) + [polygon]
    {
      polygons := polygons + [polygon];
    }

    /** Drops every polygon with this id and clears the selection if it named that id. */
    method RemovePolygon(id: string)
      modifies this`polygons, this`selectedPolygon
      ensures polygons == WithoutPolygon(old(polygons), id)
      ensures selectedPolygon == if old(selectedPolygon) == Some(id) then None else old(selectedPolygon)
    {
      polygons := WithoutPolygon(polygons, id);
      if selectedPolygon == Some(id) {
        selectedPolygon := None;
      }
    }

    method SetSelectedPolygon(id: Option<string>)
      modifies this`selectedPolygon
      ensures selectedPolygon == id
    {
      selectedPolygon := id;
    }

    /** Appends the data source after all existing ones. */
    method AddDataSource(dataSource: DataSource)
      modifies this`dataSources
      ensures dataSources == old(dataSources) + [dataSource]
    {
      dataSources := dataSources + [dataSource];
    }

    method UpdateDataSource(id: string, patch: DataSourcePatch)
      modifies this`dataSources
      ensures dataSources == WithUpdate(old(dataSources), id, patch)
    {
      dataSources := WithUpdate(dataSources, id, patch);
    }

    method SetSelectedDataSource(id: string)
      modifies this`selectedDataSource
      ensures selectedDataSource == id
    {
      selectedDataSource := id;
    }

    method AddColorRule(dataSourceId: string, rule: ColorRule)
      modifies this`dataSources
      ensures dataSources == WithRuleAdded(old(dataSources), dataSourceId, rule)
    {
      dataSources := WithRuleAdded(dataSources, dataSourceId, rule);
    }

    method RemoveColorRule(dataSourceId: string, ruleId: string)
      modifies this`dataSources
      ensures dataSources == WithRuleRemoved(old(dataSources), dataSourceId, ruleId)
    {
      dataSources := WithRuleRemoved(dataSources, dataSourceId, ruleId);
    }

    /** Replaces the observations wholesale. */
    method UpdatePolygonData(data: seq<PolygonData>)
      modifies this`polygonData
      ensures polygonData == data
    {
      polygonData := data;
    }
  }
}
