/**
 * The typed entities the workbook parser builds: data sources with their
 * columns, worksheets with their visual roles, dashboards with the
 * worksheets their zones place.
 */
module Entities {
  import opened Wrappers

  /** The six visual kinds a worksheet is classified as. */
  datatype ChartType = Map | PieChart | LineChart | BarChart | Table | ColumnChart {

    /** The name the source stores in `chart_type` and writes into placeholder text. */
    function Name(): string
    {
      match this
      case Map => "map"
      case PieChart => "pieChart"
      case LineChart => "lineChart"
      case BarChart => "barChart"
      case Table => "table"
      case ColumnChart => "columnChart"
    }
  }

  /** A data-source column: qualified name, display caption and declared type. */
  datatype Column = Column(name: string, caption: string, dataType: string)

  datatype DataSource = DataSource(name: string, caption: string, columns: seq<Column>)

  /** Column identifiers by visual role, each list in the order found. */
  datatype Roles = Roles(
    xAxis: seq<string>,
    yAxis: seq<string>,
    color: seq<string>,
    size: seq<string>,
    labels: seq<string>,
    filter: seq<string>)

  const NoRoles: Roles := Roles([], [], [], [], [], [])

  /** A zone rectangle, kept as the attribute text the workbook declares. */
  datatype Position = Position(x: string, y: string, width: string, height: string)

  datatype Worksheet = Worksheet(
    name: string,
    datasources: seq<string>,
    chartType: ChartType,
    columns: Roles,
    title: string,
    position: Option<Position>)

  datatype Dashboard = Dashboard(
    name: string,
    title: string,
    width: string,
    height: string,
    worksheets: seq<string>)

  /** Name fragments that mark a geographic column. */
  const LocationTerms: seq<string> := ["county", "state", "country", "region", "city", "location"]

  /** Caption fragments that mark a measure column during role enrichment. */
  const MeasurePatterns: seq<string> := ["value", "count", "sum", "total", "sales", "profit", "loss", "colony_lost"]
}
