# Chart app: normalisation and session model

This project models the two pieces of the MCP chart app that carry its
logic, and proves properties of them in Dafny.

- **Server** (`server.dfy`). The `display-chart` tool gets a chart
  description (`chartType`, `title`, `labels`, `datasets`). It returns the
  description as one text content block, with every dataset's fill colour,
  border colour and stroke width filled in by fixed rules. `generateColors`
  picks from five palettes of six shades each. `generateLineColor` picks
  from a list of five colours.
- **Client** (`client.dfy`). The UI app gets host events: tool input, tool
  result, cancellation, error and host-context change. It keeps the
  session state `chartData`, `error`, `hostContext` and the user's
  `chartTypeOverride`. From that state it derives what is shown: the error
  banner, the waiting placeholder, the chart with its type buttons, the
  title and the padding. `ChartSession` is a class with one method per
  event. The derivations are functions.
- **Types** (`chart_types.dfy`) holds the chart description and the
  tool-result envelope that both sides share.
- **End to end** (`end_to_end.dfy`) joins the two sides. A result the server
  builds reaches the client, and sequences of host events produce the
  views stated for them.

`JSON.stringify` and `JSON.parse` are parameters (`stringify`, `parse`),
not definitions. `parse` returns `None` where `JSON.parse` throws or yields
a falsy value. Any property that needs a round trip through the two requires
`ParsesBack`: parsing what the server serialised gives the same chart back.
This requirement covers only the one chart sent. JavaScript numbers are
modelled as `real`.

Behaviour of the code worth noting:

- In `server.ts:77`, a non-line dataset keeps a non-empty `borderColor` it
  was given. The colour is left absent only when no truthy one was given.
- In `mcp-app.tsx:99-102`, `onerror` only sets the message. The session has
  no terminal error phase.
- The handler in `server.ts:65-90` validates nothing itself. The schema the
  tool is registered with (`server.ts:9-21`, `62`) accepts empty `datasets`
  and an empty `title`, so these pass through unchanged.
- In `mcp-app.tsx:216-222`, the error banner is `{error && ...}`, a JavaScript truthiness test. It
  shows only for a non-empty message. An empty message shows the
  placeholder instead when no chart is stored.

Also visible in the model, and kept as the code has it: the type override
belongs to the session, not to one chart. A type the user picks for one chart
still applies to the next chart that arrives (`OverrideOutlivesChart`).

The field `label` of a dataset is named `seriesLabel`, because `label` is a
reserved word in Dafny.

## Model

| member | source | states |
|---|---|---|
| `Server.GenerateColors` | mcp-chart-app/server.ts:111-129 | Pie and doughnut charts get one colour per data point, exactly `count` of them, all from the palette `datasetIndex mod 5`. Bar and line charts get that palette's first shade. The result is always truthy. |
| `Server.PerPointColorsCycle` | mcp-chart-app/server.ts:120-124 | Point `i` of a pie or doughnut dataset has colour `palettes[datasetIndex mod 5][i mod 6]`. The colours repeat with period six, so every point has one, however many points there are. |
| `Server.PalettesHaveDistinctShades` | mcp-chart-app/server.ts:112-118 | The six shades of each palette are pairwise different. |
| `Server.PerPointColorsDistinct` | mcp-chart-app/server.ts:112-124 | Any six consecutive points of a pie or doughnut dataset have six different colours. |
| `Server.GenerateLineColor` | mcp-chart-app/server.ts:131-134 | The stroke colour of a line series is one of the five listed colours. |
| `Server.LineColorIsFirstShade` | mcp-chart-app/server.ts:112-133 | `generateLineColor(i)` is `colors[i mod 5]`. It equals the first shade of palette `i mod 5`, which is the single colour `generateColors("line", n, i)` gives for every `n`. |
| `Server.LineColorsDistinct` | mcp-chart-app/server.ts:131-134 | Five consecutive line series get five different stroke colours. |
| `Server.NormalizeDataset` | mcp-chart-app/server.ts:73-79 | A dataset keeps its label and data. A truthy background colour is kept; an absent or empty-string one is replaced by `generateColors(chartType, data.length, index)`. A non-empty border colour is kept. Otherwise a line series gets `generateLineColor(index)` and any other series gets none. The result is a normalised dataset. |
| `Server.Normalize` | mcp-chart-app/server.ts:69-80 | Normalising keeps `chartType`, `title` and `labels`. It keeps the number and order of datasets and each one's label and data. Dataset `i` of the result is dataset `i` normalised with index `i`, by the rules of `NormalizeDataset`. Every dataset of the result is normalised. |
| `Server.NormalizeFixesNormalized` | mcp-chart-app/server.ts:76-78 | A chart whose datasets are all normalised is left unchanged by normalising. No colour that is present gets reassigned. |
| `Server.NormalizeIdempotent` | mcp-chart-app/server.ts:69-80 | Normalising twice gives the same chart as normalising once. |
| `Server.FilledBackgroundPerPoint` | mcp-chart-app/server.ts:76 | In a pie or doughnut chart, a dataset with no background colour or an empty-string one gets `data.length` colours. Colour `k` is `palettes[index mod 5][k mod 6]`. |
| `Server.NormalizedStroke` | mcp-chart-app/server.ts:77-78 | A line series always has a border colour and width 2. Without a non-empty border colour of its own it gets `generateLineColor(i)`. Any other series has width 1, whatever width it was given. It has a border colour exactly when it was given a non-empty one. A non-empty border colour it was given is kept. |
| `Server.PieScenario` | mcp-chart-app/server.ts:112-124 | A pie dataset of three points with no colours gets `["#3b82f6", "#60a5fa", "#93c5fd"]`, width 1 and no border colour. |
| `Server.BarScenario` | mcp-chart-app/server.ts:76-78 | A bar dataset with no colours gets the single colour `#3b82f6`, width 1 and no border colour. |
| `Server.HandleDisplayChart` | mcp-chart-app/server.ts:65-90 | The handler returns exactly one content block. It is a text block holding the serialised normalised chart. |
| `ChartApp.FirstTextIndex` | mcp-chart-app/src/mcp-app.tsx:56 | `find` returns the first text block: one is found exactly when some block is text, and no block before it is text. |
| `ChartApp.ExtractChartData` | mcp-chart-app/src/mcp-app.tsx:55-63 | With no content or no text block the result is none. Otherwise it is the parse of the first text block, which is none when parsing fails. It never fails in any other way. |
| `EndToEnd.ExtractsNormalizedChart` | mcp-chart-app/server.ts:82-89 | If parsing inverts serialising on the chart sent, the client extracts from a `display-chart` result exactly the normalised chart the server built. |
| `ChartApp.MergeHostContext` | mcp-chart-app/src/mcp-app.tsx:104-106 | The merge is shallow. Its fields are the union of the old and the new fields. A new field overwrites an old one, and an old field the update does not mention is kept. An undefined previous context counts as empty. |
| `ChartApp.PaddingFor` | mcp-chart-app/src/mcp-app.tsx:209-214 | Each padding side is the host's safe-area inset on that side when the host reports one, including 0. Otherwise it is 16. |
| `ChartApp.PaddingAfterMerge` | mcp-chart-app/src/mcp-app.tsx:104-106 | After a host-context change that carries insets, the padding follows those insets. After one without insets, the padding stays as it was, including the 16-pixel default on the first change of a session. |
| `ChartApp.EffectiveChartType` | mcp-chart-app/src/mcp-app.tsx:148 | The chart is drawn as the override when there is one. Otherwise it is drawn as the stored chart's own type, or as a bar chart when no chart is stored. |
| `ChartApp.ToChartJsData` | mcp-chart-app/src/mcp-app.tsx:151-162 | The Chart.js data keeps the labels and each dataset's label, data, background colour and border colour. A missing stroke width becomes 1. |
| `ChartApp.Render` | mcp-chart-app/src/mcp-app.tsx:145-262 | The error banner shows exactly when the error is non-null and non-empty, and it shows that error. The placeholder shows exactly when there is no chart and no banner. The chart and its controls show exactly when a chart is stored, drawn as the effective type. So an error and a chart can show together, and the screen is never blank. The title is the chart's title, or "Chart" when no chart is stored. The padding comes from the host context. |
| `ChartApp.OverrideOnlyChangesKind` | mcp-chart-app/src/mcp-app.tsx:146-162 | Two renders of the same state under different overrides agree on everything except the type the chart is drawn as. That includes the data, the raw chart, the banner, the placeholder, the title and the padding. |
| `EndToEnd.RenderedStrokeFollowsStoredKind` | mcp-chart-app/src/mcp-app.tsx:151-162 | A chart from the server is drawn with the stroke the server fixed for the chart's own type, whatever the override. The client's default width is never used. |
| `ChartApp.ChartSession.constructor` | mcp-chart-app/src/mcp-app.tsx:66-68 | A session starts with no chart, no error, no host context and no override. |
| `ChartApp.ChartSession.OnToolInput` | mcp-chart-app/src/mcp-app.tsx:79-81 | A tool-input notification changes nothing. |
| `ChartApp.ChartSession.OnToolResult` | mcp-chart-app/src/mcp-app.tsx:83-92 | A result that yields a chart replaces the stored chart and clears the error. Any other result sets the error to "Failed to parse chart data" and keeps the previous chart. The host context and the override are untouched. |
| `ChartApp.ChartSession.OnToolCancelled` | mcp-chart-app/src/mcp-app.tsx:94-97 | Cancellation sets the error to "Chart generation was cancelled", whatever the reason. The chart and the host context are untouched. |
| `ChartApp.ChartSession.OnError` | mcp-chart-app/src/mcp-app.tsx:99-102 | A host error sets the error to its message. The chart and the host context are untouched, and the session does not become terminal. |
| `ChartApp.ChartSession.OnHostContextChanged` | mcp-chart-app/src/mcp-app.tsx:104-106 | The new host context is the shallow merge of the old one with the update. The chart and the error are untouched. |
| `ChartApp.ChartSession.SelectChartType` | mcp-chart-app/src/mcp-app.tsx:182-187 | Choosing a type sets only the override, and the chart is then drawn as that type. The stored chart, the error and the host context are untouched. |
| `EndToEnd.ResultThenCancel` | mcp-chart-app/src/mcp-app.tsx:83-97 | A good result followed by a cancellation leaves the server's chart on screen, under the cancellation banner. |
| `EndToEnd.MalformedFirstResult` | mcp-chart-app/src/mcp-app.tsx:83-92 | A first result that does not parse shows no chart and no placeholder, only the "Failed to parse chart data" banner. |
| `EndToEnd.StaleChartRetained` | mcp-chart-app/src/mcp-app.tsx:85-91 | A good result followed by a malformed one still shows the earlier chart, under the parse-error banner. |
| `EndToEnd.ErrorThenResult` | mcp-chart-app/src/mcp-app.tsx:86-88 | A good result after an error clears the banner and shows the server's chart, drawn as its own type. |
| `EndToEnd.OverrideOutlivesChart` | mcp-chart-app/src/mcp-app.tsx:146-148 | A type chosen while one chart is shown still applies to the next chart that arrives. The stored chart keeps the type the server gave it. |
| `EndToEnd.InputAndContextKeepChart` | mcp-chart-app/src/mcp-app.tsx:79-106 | Tool-input notifications and host-context changes leave the shown chart and the absent banner as they were. The padding follows the new insets. |

## Left out

- Resource registration and reading `mcp-app.html` from disk (`server.ts:94-105`), and the choice between source and compiled directories (`server.ts:24-26`). These are file I/O and packaging.
- Constructing the `McpServer` and registering the tool (`server.ts:47-64`). These are calls into the SDK.
- The zod input schema (`server.ts:9-21`). The handler casts its arguments and the SDK validates them, so the input is the typed `ChartData` and no validation-error path is modelled.
- The internals of `JSON.stringify` and `JSON.parse`. They are parameters. The pretty-printed raw-data view (`mcp-app.tsx:255`) is modelled as the stored chart itself.
- ChartApp.ExtractChartData: the unchecked cast `as ChartData` is not modelled. A parse that gives a truthy value that is not a chart description cannot be represented, because `parse` yields `Option<ChartData>`.
- ChartApp.Render: the title default "Chart" is stated, but it applies only when no chart is stored, when nothing is drawn. A parsed object without a title cannot be represented.
- Registering Chart.js components and drawing the chart (`mcp-app.tsx:27-37`, `189-204`). These are library state and rendering. The `default` branch of the chart switch cannot be reached with four chart types.
- React and library mechanics. These are `useApp` with its connection error and "Connecting..." screen, `useHostStyles`, `createRoot` and the markup. Also left out is the effect that replaces the host context with `app.getHostContext()` once the app exists (`mcp-app.tsx:113-117`), because it is the library's connection lifecycle.
- Console logging in every handler. Also teardown (`mcp-app.tsx:74-77`), which only logs and returns an empty object.
- Numbers are `real`. Values JSON cannot carry (NaN, infinities) and floating-point precision are not modelled.
