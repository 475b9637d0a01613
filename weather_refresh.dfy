/**
 * The observation refresh of hooks/useWeatherData.ts. For every polygon the weather
 * series fetched for its centroid is reduced to one value (the sample of the selected
 * hour, or the mean over the selected window), coloured by its data source's rules, and
 * the surviving observations replace the store's `polygonData`. The fetch itself is an
 * input: one outcome per polygon, `None` when it failed.
 */
module WeatherRefresh {

  import opened Wrappers
  import opened Seqs
  import opened Types
  import opened ColorRules
  import opened Store

  /**
   * What the refresh reads besides the polygons: the mode, the window, and the two
   * renderings of the selected hour (`yyyy-MM-dd'T'HH:00` to match samples, and
   * `yyyy-MM-dd'T'HH:mm:ss` to stamp observations).
   */
  datatype Selection = Selection(isRangeMode: bool, timeRange: TimeRange, hourPrefix: string, timestamp: string)

  predicate StartsWith(text: string, prefix: string)
  {
    prefix <= text
  }

  /** The temperature of the first sample whose time starts with the hour prefix, else 0. */
  function HourValue(hourly: seq<Sample>, hourPrefix: string): (r: Number)
    ensures (forall i :: 0 <= i < |hourly| ==> !StartsWith(hourly[i].time, hourPrefix)) ==> r == Finite(0.0)
    ensures forall i :: 0 <= i < |hourly| && StartsWith(hourly[i].time, hourPrefix) &&
                        (forall j :: 0 <= j < i ==> !StartsWith(hourly[j].time, hourPrefix)) ==>
                        r == Finite(hourly[i].temperature)
  {
    match Find(hourly, (s: Sample) => StartsWith(s.time, hourPrefix))
    case Some(i) => Finite(hourly[i].temperature)
    case None => Finite(0.0)
  }

  predicate InWindow(s: Sample, window: TimeRange)
  {
    window.start <= s.instant <= window.end
  }

  function Temperatures(samples: seq<Sample>): seq<real>
  {
    seq(|samples|, i requires 0 <= i < |samples| => samples[i].temperature)
  }

  /** The samples inside the window, in series order. */
  function Relevant(hourly: seq<Sample>, window: TimeRange): seq<Sample>
  {
    Filter(hourly, (s: Sample) => InWindow(s, window))
  }

  /** The mean temperature of the in-window samples; NaN (0/0) when the window holds none. */
  function RangeValue(hourly: seq<Sample>, window: TimeRange): (r: Number)
    ensures r.NaN? <==> forall i :: 0 <= i < |hourly| ==> !InWindow(hourly[i], window)
  {
    var temperatures := Temperatures(Relevant(hourly, window));
    if |temperatures| == 0 then NaN
    else Finite(Sum(temperatures) / |temperatures| as real)
  }

  /** The range value is a mean: it lies between any bounds on the in-window temperatures. */
  lemma RangeValueBounded(hourly: seq<Sample>, window: TimeRange, lo: real, hi: real)
    requires exists i :: 0 <= i < |hourly| && InWindow(hourly[i], window)
    requires forall i :: 0 <= i < |hourly| && InWindow(hourly[i], window) ==> lo <= hourly[i].temperature <= hi
    ensures RangeValue(hourly, window).Finite?
    ensures lo <= RangeValue(hourly, window).v <= hi
  {
    var relevant := Relevant(hourly, window);
    var temperatures := Temperatures(relevant);
    forall k | 0 <= k < |temperatures| ensures lo <= temperatures[k] <= hi {
      assert relevant[k] in hourly;
    }
    MeanBounds(temperatures, lo, hi);
  }

  /** The value the refresh computes from one fetched series. */
  function Value(weather: WeatherData, selection: Selection): Number
  {
    if selection.isRangeMode then RangeValue(weather.hourly, selection.timeRange)
    else HourValue(weather.hourly, selection.hourPrefix)
  }

  /** The first data source with this id (`dataSources.find`). */
  function SourceOf(dataSources: seq<DataSource>, id: string): (r: Option<DataSource>)
    ensures r.None? <==> forall k :: 0 <= k < |dataSources| ==> dataSources[k].id != id
    ensures r.Some? ==> r.value.id == id && r.value in dataSources
    ensures r.Some? ==> exists k :: 0 <= k < |dataSources| && dataSources[k] == r.value &&
                                    forall j :: 0 <= j < k ==> dataSources[j].id != id
  {
    match Find(dataSources, (ds: DataSource) => ds.id == id)
    case Some(k) => Some(dataSources[k])
    case None => None
  }

  /**
   * One polygon's entry: none when its fetch failed or its data source is unknown,
   * otherwise its value, stamped and coloured by the source's rules.
   */
  function Observe(polygon: Polygon, fetched: Option<WeatherData>, dataSources: seq<DataSource>, selection: Selection)
    : (r: Option<PolygonData>)
    ensures r.Some? <==> fetched.Some? && SourceOf(dataSources, polygon.dataSource).Some?
    ensures r.Some? ==>
      && r.value.polygonId == polygon.id
      && r.value.timestamp == selection.timestamp
      && r.value.value == Value(fetched.value, selection)
      && r.value.color == Classify(r.value.value, SourceOf(dataSources, polygon.dataSource).value.colorRules)
  {
    match fetched
    case None => None
    case Some(weather) =>
      match SourceOf(dataSources, polygon.dataSource)
      case None => None
      case Some(ds) =>
        var value := Value(weather, selection);
        Some(PolygonData(polygon.id, selection.timestamp, value, Classify(value, ds.colorRules)))
  }

  /** Every polygon's entry, in polygon order (what `Promise.all` collects). */
  function Results(polygons: seq<Polygon>, fetched: seq<Option<WeatherData>>, dataSources: seq<DataSource>, selection: Selection)
    : seq<Option<PolygonData>>
    requires |fetched| == |polygons|
  {
    seq(|polygons|, i requires 0 <= i < |polygons| => Observe(polygons[i], fetched[i], dataSources, selection))
  }

  /** The entries that survive, in polygon order: the new `polygonData`. */
  function Observations(polygons: seq<Polygon>, fetched: seq<Option<WeatherData>>, dataSources: seq<DataSource>, selection: Selection)
    : (r: seq<PolygonData>)
    requires |fetched| == |polygons|
    ensures |r| <= |polygons|
    ensures forall i :: 0 <= i < |polygons| && Observe(polygons[i], fetched[i], dataSources, selection).Some? ==>
      Observe(polygons[i], fetched[i], dataSources, selection).value in r
  {
    var results := Results(polygons, fetched, dataSources, selection);
    assert forall i :: 0 <= i < |polygons| ==> results[i] == Observe(polygons[i], fetched[i], dataSources, selection);
    Somes(results)
  }

  /**
   * Each polygon contributes independently and in order: the observations of two
   * batches of polygons taken together are those of the first batch followed by those
   * of the second, whatever happened to the other batch's fetches.
   */
  lemma ObservationsSplit(
    polygons: seq<Polygon>, fetched: seq<Option<WeatherData>>,
    more: seq<Polygon>, moreFetched: seq<Option<WeatherData>>,
    dataSources: seq<DataSource>, selection: Selection)
    requires |fetched| == |polygons| && |moreFetched| == |more|
    ensures Observations(polygons + more, fetched + moreFetched, dataSources, selection)
         == Observations(polygons, fetched, dataSources, selection) + Observations(more, moreFetched, dataSources, selection)
  {
    var all := Results(polygons + more, fetched + moreFetched, dataSources, selection);
    assert all == Results(polygons, fetched, dataSources, selection) + Results(more, moreFetched, dataSources, selection);
    SomesAppend(Results(polygons, fetched, dataSources, selection), Results(more, moreFetched, dataSources, selection));
  }

  /** Every emitted entry comes from a polygon whose fetch succeeded and whose data source exists, and carries its value and the colour that source's rules give it. */
  lemma {:induction false} ObservationsSound(
    polygons: seq<Polygon>, fetched: seq<Option<WeatherData>>, dataSources: seq<DataSource>, selection: Selection, k: nat)
    requires |fetched| == |polygons|
    requires k < |Observations(polygons, fetched, dataSources, selection)|
    ensures var d := Observations(polygons, fetched, dataSources, selection)[k];
      exists i :: 0 <= i < |polygons| && Emits(polygons[i], fetched[i], dataSources, selection, d)
  {
  }

  /** `d` is the entry emitted for `polygon`. */
  predicate Emits(polygon: Polygon, fetched: Option<WeatherData>, dataSources: seq<DataSource>, selection: Selection, d: PolygonData)
  {
    && fetched.Some?
    && SourceOf(dataSources, polygon.dataSource).Some?
    && d.polygonId == polygon.id
    && d.timestamp == selection.timestamp
    && d.value == Value(fetched.value, selection)
    && d.color == Classify(d.value, SourceOf(dataSources, polygon.dataSource).value.colorRules)
  }

  /**
   * With distinct polygon ids, a polygon whose fetch failed or whose data source is
   * unknown has no entry, while its siblings keep theirs.
   */
  lemma ObservationsDropFailed(
    polygons: seq<Polygon>, fetched: seq<Option<WeatherData>>, dataSources: seq<DataSource>, selection: Selection, i: nat)
    requires |fetched| == |polygons|
    requires forall a, b :: 0 <= a < b < |polygons| ==> polygons[a].id != polygons[b].id
    requires i < |polygons| && (fetched[i].None? || SourceOf(dataSources, polygons[i].dataSource).None?)
    ensures forall k :: 0 <= k < |Observations(polygons, fetched, dataSources, selection)| ==>
      Observations(polygons, fetched, dataSources, selection)[k].polygonId != polygons[i].id
  {
  }

  /** The selection the refresh reads from the store, with the selected hour already rendered. */
  function SelectionOf(store: AppStore, hourPrefix: string, timestamp: string): Selection
    reads store
  {
    Selection(store.isRangeMode, store.timeRange, hourPrefix, timestamp)
  }

  /**
   * `fetchDataForPolygons`, given the fetch outcome for each polygon: with no polygons
   * nothing is written; otherwise `polygonData` is replaced by the surviving observations.
   */
  method FetchDataForPolygons(store: AppStore, fetched: seq<Option<WeatherData>>, hourPrefix: string, timestamp: string)
    requires |fetched| == |store.polygons|
    modifies store`polygonData
    ensures |store.polygons| == 0 ==> store.polygonData == old(store.polygonData)
    ensures |store.polygons| > 0 ==>
      store.polygonData == Observations(store.polygons, fetched, store.dataSources, SelectionOf(store, hourPrefix, timestamp))
  {
    if |store.polygons| == 0 {
      return;
    }
    var selection := SelectionOf(store, hourPrefix, timestamp);
    var validResults := Observations(store.polygons, fetched, store.dataSources, selection);
    store.UpdatePolygonData(validResults);
  }
}
