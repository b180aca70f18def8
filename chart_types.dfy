/** Values shared by the server and the client of the chart app: the chart
    description that the `display-chart` tool receives and returns, and the
    tool-result envelope that carries it to the UI. */
module ChartTypes {

  /** An optional value: `undefined` / `null` in the source. */
  datatype Option<+T> = None | Some(value: T)

  /** The closed set of chart kinds, `"bar" | "line" | "pie" | "doughnut"`. */
  datatype ChartType = Bar | Line | Pie | Doughnut

  /** `backgroundColor?: string | string[]`: one colour for the whole series,
      or one colour per data point. */
  datatype Color = Single(color: string) | PerPoint(colors: seq<string>)

  /** One series of a chart (`ChartDataset`). JavaScript numbers are modelled
      as (finite) reals. */
  datatype Dataset = Dataset(
    seriesLabel: string,
    data: seq<real>,
    backgroundColor: Option<Color>,
    borderColor: Option<string>,
    borderWidth: Option<real>)

  /** The chart description (`ChartData`). */
  datatype ChartData = ChartData(
    chartType: ChartType,
    title: string,
    labels: seq<string>,
    datasets: seq<Dataset>)

  /** The `type` tag of a content block that is not text. */
  type NonTextType = t: string | t != "text" witness "image"

  /** One content block of a tool result; only text blocks matter here. */
  datatype ContentBlock = Text(text: string) | NonText(blockType: NonTextType)

  /** A tool result (`CallToolResult`); the client reads `content` through
      optional chaining, so it may be absent. */
  datatype CallToolResult = CallToolResult(content: Option<seq<ContentBlock>>)

  /** JavaScript truthiness of a present colour value: the empty string is
      falsy, an array (even an empty one) is truthy. */
  predicate IsTruthyColor(c: Color) {
    match c
    case Single(s) => s != ""
    case PerPoint(_) => true
  }

  /** JavaScript truthiness of an optional string. */
  predicate IsTruthyText(s: Option<string>) {
    s.Some? && s.value != ""
  }
}
