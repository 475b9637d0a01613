/** The records shared by the store, the map and the weather hook (types/index.ts). */
module Types {

  /** A `[latitude, longitude]` pair as the drawing code and the geometry functions pass it. */
  type LatLng = (real, real)

  datatype Point = Point(lat: real, lng: real)

  datatype BoundingBox = BoundingBox(north: real, south: real, east: real, west: real)

  /** A stored polygon: its outline, the data source it is bound to and its derived geometry. */
  datatype Polygon = Polygon(
    id: string,
    name: string,
    points: seq<Point>,
    dataSource: string,
    color: string,
    centroid: Point,
    boundingBox: BoundingBox)

  /** The five comparison operators a colour rule may use. */
  datatype Operator = Eq | Lt | Gt | Le | Ge

  /** A threshold rule: when `value <operator> threshold` holds, the polygon gets `color`. */
  datatype ColorRule = ColorRule(id: string, field: string, operator: Operator, value: real, color: string)

  datatype DataSource = DataSource(id: string, name: string, fields: seq<string>, colorRules: seq<ColorRule>)

  /**
   * A JavaScript number as an observation value: a finite real or NaN (the mean of an
   * empty window is 0/0). NaN compares false against every threshold.
   */
  datatype Number = Finite(v: real) | NaN

  /** The observation shown for one polygon. */
  datatype PolygonData = PolygonData(polygonId: string, timestamp: string, value: Number, color: string)

  /**
   * One hourly sample of the weather series: its ISO-8601 time text, the instant that
   * text denotes, and the temperature.
   */
  datatype Sample = Sample(time: string, instant: int, temperature: real)

  datatype WeatherData = WeatherData(latitude: real, longitude: real, hourly: seq<Sample>)

  /** A time window between two instants (milliseconds), both ends included. */
  datatype TimeRange = TimeRange(start: int, end: int)
}
