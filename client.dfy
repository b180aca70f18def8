/** The client half of the chart app: extraction of the chart description
    from a tool result, the session state the host events update, and the
    view derived from that state. */
module ChartApp {
  import opened ChartTypes

  const ParseFailedMessage := "Failed to parse chart data"
  const CancelledMessage := "Chart generation was cancelled"
  /** Defaults of the view: chart kind, title, padding and stroke width. */
  const DefaultChartType := Bar
  const DefaultTitle := "Chart"
  const DefaultPadding: real := 16.0
  const DefaultBorderWidth: real := 1.0

  // ---------------------------------------------------------------------
  // Extracting the chart from a tool result

  /** `content.find((c) => c.type === "text")`, as the position of the first
      text block. */
  function FirstTextIndex(blocks: seq<ContentBlock>): (r: Option<nat>)
    ensures r.Some? ==> r.value < |blocks| && blocks[r.value].Text?
    ensures r.Some? ==> forall j :: 0 <= j < r.value ==> !blocks[j].Text?
    ensures r.None? ==> forall j :: 0 <= j < |blocks| ==> !blocks[j].Text?
  {
    if |blocks| == 0 then None
    else if blocks[0].Text? then Some(0)
    else
      match FirstTextIndex(blocks[1..])
      case None => None
      case Some(k) => Some(k + 1)
  }

  /** `extractChartData`: the first text block parsed as a chart, or nothing
      when the result has no content, no text block, or text that does not
      parse. `parse` is `JSON.parse` followed by the cast to `ChartData`; it
      yields `None` where `JSON.parse` throws or gives a falsy value. */
  function ExtractChartData(result: CallToolResult, parse: string -> Option<ChartData>): (r: Option<ChartData>)
    ensures result.content.None? ==> r.None?
    ensures result.content.Some? && (forall j :: 0 <= j < |result.content.value| ==> !result.content.value[j].Text?)
      ==> r.None?
    ensures result.content.Some? ==>
      forall i :: 0 <= i < |result.content.value| && result.content.value[i].Text? &&
        (forall j :: 0 <= j < i ==> !result.content.value[j].Text?)
        ==> r == parse(result.content.value[i].text)
  {
    match result.content
    case None => None
    case Some(blocks) =>
      match FirstTextIndex(blocks)
      case None => None
      case Some(i) => parse(blocks[i].text)
  }

  // ---------------------------------------------------------------------
  // Host context

  /** A field value of the host context; only the safe-area insets are read
      by the app, every other field is opaque. */
  datatype HostValue =
    | SafeAreaInsets(top: Option<real>, right: Option<real>, bottom: Option<real>, left: Option<real>)
    | Opaque(json: string)

  /** The host context, field name to value; absent fields are absent keys. */
  type HostContext = map<string, HostValue>

  const SafeAreaInsetsField := "safeAreaInsets"

  /** `{ ...prev, ...params }` with `prev` possibly undefined. */
  function MergeHostContext(prev: Option<HostContext>, params: HostContext): (r: HostContext)
    ensures prev.None? ==> r == params
    ensures prev.Some? ==> r.Keys == prev.value.Keys + params.Keys
    ensures forall k :: k in params ==> k in r && r[k] == params[k]
    ensures prev.Some? ==> forall k :: k in prev.value && k !in params ==> k in r && r[k] == prev.value[k]
  {
    match prev
    case None => map[] + params
    case Some(p) => p + params
  }

  /** `hostContext?.safeAreaInsets`. */
  function SafeArea(hostContext: Option<HostContext>): Option<HostValue> {
    if hostContext.Some? && SafeAreaInsetsField in hostContext.value
       && hostContext.value[SafeAreaInsetsField].SafeAreaInsets?
    then Some(hostContext.value[SafeAreaInsetsField])
    else None
  }

  /** The `??` operator on an optional number. */
  function OrElse(v: Option<real>, default: real): real {
    if v.Some? then v.value else default
  }

  datatype Padding = Padding(top: real, right: real, bottom: real, left: real)

  /** The padding of the main element: each side is the host's inset on that
      side when it reports one (zero included) and 16 otherwise. */
  function PaddingFor(hostContext: Option<HostContext>): (r: Padding)
    ensures SafeArea(hostContext).None? ==>
      r == Padding(DefaultPadding, DefaultPadding, DefaultPadding, DefaultPadding)
    ensures SafeArea(hostContext).Some? ==>
      var s := SafeArea(hostContext).value;
      && (s.top.Some? ==> r.top == s.top.value) && (s.top.None? ==> r.top == DefaultPadding)
      && (s.right.Some? ==> r.right == s.right.value) && (s.right.None? ==> r.right == DefaultPadding)
      && (s.bottom.Some? ==> r.bottom == s.bottom.value) && (s.bottom.None? ==> r.bottom == DefaultPadding)
      && (s.left.Some? ==> r.left == s.left.value) && (s.left.None? ==> r.left == DefaultPadding)
  {
    match SafeArea(hostContext)
    case None => Padding(DefaultPadding, DefaultPadding, DefaultPadding, DefaultPadding)
    case Some(s) =>
      Padding(OrElse(s.top, DefaultPadding), OrElse(s.right, DefaultPadding),
              OrElse(s.bottom, DefaultPadding), OrElse(s.left, DefaultPadding))
  }

  /** After a host-context change the padding follows the insets that change
      carries, and without insets in it the padding stays what it was. */
  lemma {:induction false} PaddingAfterMerge(prev: Option<HostContext>, params: HostContext)
    ensures SafeAreaInsetsField in params ==>
      PaddingFor(Some(MergeHostContext(prev, params))) == PaddingFor(Some(params))
    ensures SafeAreaInsetsField !in params ==>
      PaddingFor(Some(MergeHostContext(prev, params))) == PaddingFor(prev)
  {
  }

  // ---------------------------------------------------------------------
  // View derivation (`ChartAppInner`)

  /** `chartTypeOverride ?? chartData?.chartType ?? "bar"`. */
  function EffectiveChartType(chartTypeOverride: Option<ChartType>, chartData: Option<ChartData>): (r: ChartType)
    ensures chartTypeOverride.Some? ==> r == chartTypeOverride.value
    ensures chartTypeOverride.None? && chartData.Some? ==> r == chartData.value.chartType
    ensures chartTypeOverride.None? && chartData.None? ==> r == DefaultChartType
  {
    match chartTypeOverride
    case Some(t) => t
    case None =>
      match chartData
      case Some(d) => d.chartType
      case None => DefaultChartType
  }

  /** A dataset as handed to Chart.js. */
  datatype ChartJsDataset = ChartJsDataset(
    seriesLabel: string,
    data: seq<real>,
    backgroundColor: Option<Color>,
    borderColor: Option<string>,
    borderWidth: real)

  datatype ChartJsData = ChartJsData(labels: seq<string>, datasets: seq<ChartJsDataset>)

  function ToChartJsDataset(ds: Dataset): ChartJsDataset {
    ChartJsDataset(ds.seriesLabel, ds.data, ds.backgroundColor, ds.borderColor,
                   OrElse(ds.borderWidth, DefaultBorderWidth))
  }

  /** The Chart.js data: labels, and each dataset with its label, data and
      colours as stored and its stroke width defaulting to 1. */
  function ToChartJsData(c: ChartData): (r: ChartJsData)
    ensures r.labels == c.labels && |r.datasets| == |c.datasets|
    ensures forall i :: 0 <= i < |c.datasets| ==>
      var (d, ds) := (r.datasets[i], c.datasets[i]);
      && d.seriesLabel == ds.seriesLabel && d.data == ds.data
      && d.backgroundColor == ds.backgroundColor && d.borderColor == ds.borderColor
      && (ds.borderWidth.Some? ==> d.borderWidth == ds.borderWidth.value)
      && (ds.borderWidth.None? ==> d.borderWidth == DefaultBorderWidth)
  {
    ChartJsData(c.labels, seq(|c.datasets|, i requires 0 <= i < |c.datasets| => ToChartJsDataset(c.datasets[i])))
  }

  /** The chart area, shown only when a chart is stored: the kind it is drawn
      as (also the highlighted type button), the Chart.js data, and the
      stored chart itself for the raw-data view. */
  datatype ChartPanel = ChartPanel(kind: ChartType, data: ChartJsData, raw: ChartData)

  /** What the app shows. */
  datatype View = View(
    padding: Padding,
    titleText: string,
    errorBanner: Option<string>,
    placeholder: bool,
    panel: Option<ChartPanel>)

  /** The render of `ChartAppInner` from its props and its override. */
  function Render(chartData: Option<ChartData>, error: Option<string>, hostContext: Option<HostContext>,
                  chartTypeOverride: Option<ChartType>): (v: View)
    ensures v.errorBanner.Some? <==> IsTruthyText(error)
    ensures v.errorBanner.Some? ==> v.errorBanner == error
    ensures v.placeholder <==> chartData.None? && v.errorBanner.None?
    ensures v.panel.Some? <==> chartData.Some?
    ensures v.panel.Some? ==>
      && v.panel.value.raw == chartData.value
      && v.panel.value.data == ToChartJsData(chartData.value)
      && v.panel.value.kind == EffectiveChartType(chartTypeOverride, chartData)
    ensures v.placeholder || v.errorBanner.Some? || v.panel.Some?
    ensures v.titleText == if chartData.Some? then chartData.value.title else DefaultTitle
    ensures v.padding == PaddingFor(hostContext)
  {
    View(
      PaddingFor(hostContext),
      match chartData { case Some(d) => d.title case None => DefaultTitle },
      if IsTruthyText(error) then error else None,
      chartData.None? && !IsTruthyText(error),
      match chartData {
        case Some(d) => Some(ChartPanel(EffectiveChartType(chartTypeOverride, chartData), ToChartJsData(d), d))
        case None => None
      })
  }

  /** The override changes only the kind the chart is drawn as: two renders
      of the same state under different overrides agree on everything else. */
  lemma {:induction false} OverrideOnlyChangesKind(chartData: Option<ChartData>, error: Option<string>,
                                                    hostContext: Option<HostContext>, o1: Option<ChartType>, o2: Option<ChartType>)
    ensures var (v1, v2) := (Render(chartData, error, hostContext, o1), Render(chartData, error, hostContext, o2));
      && v1.padding == v2.padding && v1.titleText == v2.titleText
      && v1.errorBanner == v2.errorBanner && v1.placeholder == v2.placeholder
      && v1.panel.Some? == v2.panel.Some?
      && (v1.panel.Some? ==> v1.panel.value.data == v2.panel.value.data && v1.panel.value.raw == v2.panel.value.raw)
  {
  }

  // ---------------------------------------------------------------------
  // Session state and the host event handlers

  /** Payload of a tool-input notification; the app only logs it. */
  datatype ToolInput = ToolInput(arguments: map<string, string>)

  /** Payload of a cancellation notification. */
  datatype ToolCancelled = ToolCancelled(reason: Option<string>)

  /** An error reported by the host connection. */
  datatype HostError = HostError(message: string)

  /** The state of `ChartApp` (`chartData`, `error`, `hostContext`) and of
      `ChartAppInner` (`chartTypeOverride`), updated by one method per event. */
  class ChartSession {
    var chartData: Option<ChartData>
    var error: Option<string>
    var hostContext: Option<HostContext>
    var chartTypeOverride: Option<ChartType>

    constructor ()
      ensures chartData == None && error == None && hostContext == None && chartTypeOverride == None
    {
      chartData, error, hostContext, chartTypeOverride := None, None, None, None;
    }

    /** The current view. */
    function CurrentView(): View
      reads this
    {
      Render(chartData, error, hostContext, chartTypeOverride)
    }

    /** `ontoolinput`: logged, nothing changes. */
    method OnToolInput(input: ToolInput)
      ensures unchanged(this)
    {
    }

    /** `ontoolresult`: a result that yields a chart replaces the stored one and
        clears the error; any other result sets the parse error and keeps the
        previous chart. */
    method OnToolResult(result: CallToolResult, parse: string -> Option<ChartData>)
      modifies this`chartData, this`error
      ensures ExtractChartData(result, parse).Some? ==>
        chartData == ExtractChartData(result, parse) && error == None
      ensures ExtractChartData(result, parse).None? ==>
        chartData == old(chartData) && error == Some(ParseFailedMessage)
      ensures hostContext == old(hostContext) && chartTypeOverride == old(chartTypeOverride)
    {
      var data := ExtractChartData(result, parse);
      if data.Some? {
        chartData := data;
        error := None;
      } else {
        error := Some(ParseFailedMessage);
      }
    }

    /** `ontoolcancelled`: the cancellation message, whatever the reason. */
    method OnToolCancelled(params: ToolCancelled)
      modifies this`error
      ensures error == Some(CancelledMessage)
      ensures chartData == old(chartData) && hostContext == old(hostContext)
    {
      error := Some(CancelledMessage);
    }

    /** `onerror`: the error's message. */
    method OnError(err: HostError)
      modifies this`error
      ensures error == Some(err.message)
      ensures chartData == old(chartData) && hostContext == old(hostContext)
    {
      error := Some(err.message);
    }

    /** `onhostcontextchanged`: shallow merge into the current context. */
    method OnHostContextChanged(params: HostContext)
      modifies this`hostContext
      ensures hostContext == Some(MergeHostContext(old(hostContext), params))
      ensures chartData == old(chartData) && error == old(error)
    {
      hostContext := Some(MergeHostContext(hostContext, params));
    }

    /** `handleChartTypeChange`: sets the override, and with it the kind the
        chart is drawn as; the stored chart is not touched. */
    method SelectChartType(chartType: ChartType)
      modifies this`chartTypeOverride
      ensures chartTypeOverride == Some(chartType)
      ensures EffectiveChartType(chartTypeOverride, chartData) == chartType
      ensures chartData == old(chartData) && error == old(error) && hostContext == old(hostContext)
    {
      chartTypeOverride := Some(chartType);
    }
  }
}
