/** The two halves together: a `display-chart` result reaching the app, and
    session scenarios. `stringify` and `parse` stand
    for `JSON.stringify` and `JSON.parse`; where a property depends on them,
    it assumes that parsing the text the server sent gives back the chart it
    serialised. */
module EndToEnd {
  import opened ChartTypes
  import opened Server
  import opened ChartApp

  /** Parsing the serialisation of `c` gives `c` back. */
  predicate ParsesBack(stringify: ChartData -> string, parse: string -> Option<ChartData>, c: ChartData) {
    parse(stringify(c)) == Some(c)
  }

  /** The app extracts from a `display-chart` result exactly the normalised
      chart the server built. */
  lemma {:induction false} ExtractsNormalizedChart(args: ChartData, stringify: ChartData -> string,
                                                   parse: string -> Option<ChartData>)
    requires ParsesBack(stringify, parse, Normalize(args))
    ensures ExtractChartData(HandleDisplayChart(args, stringify), parse) == Some(Normalize(args))
  {
  }

  /** A chart that came from the server is drawn with the stroke the server
      fixed for its own kind (width 2 and a border colour for line charts,
      width 1 otherwise), whatever kind the user overrides it to: the
      client's default width is never used. */
  lemma {:induction false} RenderedStrokeFollowsStoredKind(args: ChartData, error: Option<string>,
                                                           hostContext: Option<HostContext>,
                                                           chartTypeOverride: Option<ChartType>, i: nat)
    requires i < |args.datasets|
    ensures var v := Render(Some(Normalize(args)), error, hostContext, chartTypeOverride);
      && v.panel.Some?
      && |v.panel.value.data.datasets| == |args.datasets|
      && v.panel.value.data.datasets[i].borderWidth == (if args.chartType == Line then 2.0 else 1.0)
      && (args.chartType == Line ==> v.panel.value.data.datasets[i].borderColor.Some?)
  {
  }

  /** A chart arrives and then the call is cancelled: the chart stays on
      screen under the cancellation banner. */
  method ResultThenCancel(args: ChartData, stringify: ChartData -> string, parse: string -> Option<ChartData>,
                          reason: Option<string>)
    returns (v: View)
    requires ParsesBack(stringify, parse, Normalize(args))
    ensures v.panel.Some? && v.panel.value.raw == Normalize(args)
    ensures v.errorBanner == Some(CancelledMessage) && !v.placeholder
  {
    var session := new ChartSession();
    ExtractsNormalizedChart(args, stringify, parse);
    session.OnToolResult(HandleDisplayChart(args, stringify), parse);
    session.OnToolCancelled(ToolCancelled(reason));
    v := session.CurrentView();
  }

  /** A first result that does not parse: no chart, only the parse error. */
  method MalformedFirstResult(result: CallToolResult, parse: string -> Option<ChartData>)
    returns (v: View)
    requires ExtractChartData(result, parse).None?
    ensures v.panel.None? && v.errorBanner == Some(ParseFailedMessage) && !v.placeholder
  {
    var session := new ChartSession();
    session.OnToolResult(result, parse);
    v := session.CurrentView();
  }

  /** A good result followed by a malformed one: the earlier chart is still
      drawn, under the parse-error banner. */
  method StaleChartRetained(args: ChartData, stringify: ChartData -> string, parse: string -> Option<ChartData>,
                            bad: CallToolResult)
    returns (v: View)
    requires ParsesBack(stringify, parse, Normalize(args))
    requires ExtractChartData(bad, parse).None?
    ensures v.panel.Some? && v.panel.value.raw == Normalize(args)
    ensures v.errorBanner == Some(ParseFailedMessage)
  {
    var session := new ChartSession();
    ExtractsNormalizedChart(args, stringify, parse);
    session.OnToolResult(HandleDisplayChart(args, stringify), parse);
    session.OnToolResult(bad, parse);
    v := session.CurrentView();
  }

  /** An error and then a good result: the result clears the banner. */
  method ErrorThenResult(err: HostError, args: ChartData, stringify: ChartData -> string,
                         parse: string -> Option<ChartData>)
    returns (v: View)
    requires ParsesBack(stringify, parse, Normalize(args))
    ensures v.errorBanner.None? && !v.placeholder
    ensures v.panel.Some? && v.panel.value.raw == Normalize(args)
    ensures v.panel.value.kind == args.chartType
  {
    var session := new ChartSession();
    session.OnError(err);
    ExtractsNormalizedChart(args, stringify, parse);
    session.OnToolResult(HandleDisplayChart(args, stringify), parse);
    v := session.CurrentView();
  }

  /** The override belongs to the session, not to a chart: a type chosen for
      one chart still applies to the next chart that arrives, whatever kind
      the server gave it. */
  method OverrideOutlivesChart(first: ChartData, second: ChartData, chosen: ChartType,
                               stringify: ChartData -> string, parse: string -> Option<ChartData>)
    returns (v: View)
    requires ParsesBack(stringify, parse, Normalize(first)) && ParsesBack(stringify, parse, Normalize(second))
    ensures v.panel.Some? && v.panel.value.raw == Normalize(second)
    ensures v.panel.value.kind == chosen
    ensures v.panel.value.raw.chartType == second.chartType
  {
    var session := new ChartSession();
    ExtractsNormalizedChart(first, stringify, parse);
    session.OnToolResult(HandleDisplayChart(first, stringify), parse);
    session.SelectChartType(chosen);
    ExtractsNormalizedChart(second, stringify, parse);
    session.OnToolResult(HandleDisplayChart(second, stringify), parse);
    v := session.CurrentView();
  }

  /** Tool-input notifications and host-context changes leave the chart,
      the error and the override as they were. */
  method InputAndContextKeepChart(args: ChartData, stringify: ChartData -> string,
                                  parse: string -> Option<ChartData>, input: ToolInput, params: HostContext)
    returns (v: View)
    requires ParsesBack(stringify, parse, Normalize(args))
    ensures v.panel.Some? && v.panel.value.raw == Normalize(args) && v.errorBanner.None?
    ensures v.padding == PaddingFor(Some(params))
  {
    var session := new ChartSession();
    ExtractsNormalizedChart(args, stringify, parse);
    session.OnToolResult(HandleDisplayChart(args, stringify), parse);
    session.OnToolInput(input);
    session.OnHostContextChanged(params);
    v := session.CurrentView();
  }
}
