/** The server half of the chart app: the colour assigners and the
    normalisation that the `display-chart` tool applies to every request
    before returning it as one text content block. */
module Server {
  import opened ChartTypes

  /** A CSS hex colour `#rrggbb`: seven characters, the first a `#`. */
  type HexColor = s: string | |s| == 7 && s[0] == '#' witness "#000000"

  /** A palette: six shades of one hue, from most saturated to most faded. */
  type Palette = p: seq<HexColor> | |p| == 6
    witness ["#000000", "#000000", "#000000", "#000000", "#000000", "#000000"]

  /** The five palettes of `generateColors`: blue, green, amber, red, violet. */
  const ColorPalettes: seq<Palette> := [
    ["#3b82f6", "#60a5fa", "#93c5fd", "#bfdbfe", "#dbeafe", "#eff6ff"],
    ["#10b981", "#34d399", "#6ee7b7", "#a7f3d0", "#d1fae5", "#ecfdf5"],
    ["#f59e0b", "#fbbf24", "#fcd34d", "#fde68a", "#fef3c7", "#fffbeb"],
    ["#ef4444", "#f87171", "#fca5a5", "#fecaca", "#fee2e2", "#fef2f2"],
    ["#8b5cf6", "#a78bfa", "#c4b5fd", "#ddd6fe", "#ede9fe", "#f5f3ff"]
  ]

  /** The five stroke colours of `generateLineColor`. */
  const LineColors: seq<HexColor> := ["#3b82f6", "#10b981", "#f59e0b", "#ef4444", "#8b5cf6"]

  /** The palette `generateColors` selects for the dataset at `datasetIndex`. */
  function PaletteFor(datasetIndex: nat): Palette {
    ColorPalettes[datasetIndex % |ColorPalettes|]
  }

  /** `generateColors`: one colour per data point for pie and doughnut charts,
      cycling through the selected palette, and the palette's first shade for
      bar and line charts. */
  function GenerateColors(chartType: ChartType, count: nat, datasetIndex: nat): (r: Color)
    ensures r.PerPoint? <==> chartType == Pie || chartType == Doughnut
    ensures r.PerPoint? ==> |r.colors| == count
    ensures r.PerPoint? ==> forall i :: 0 <= i < count ==> r.colors[i] in PaletteFor(datasetIndex)
    ensures r.Single? ==> r.color == PaletteFor(datasetIndex)[0]
    ensures IsTruthyColor(r)
  {
    var palette := PaletteFor(datasetIndex);
    if chartType == Pie || chartType == Doughnut then
      PerPoint(seq(count, i requires 0 <= i < count => palette[i % |palette|]))
    else
      Single(palette[0])
  }

  /** `generateLineColor`: the stroke colour of the line series at `index`. */
  function GenerateLineColor(index: nat): (r: HexColor)
    ensures r in LineColors
  {
    LineColors[index % |LineColors|]
  }

  /** The stroke width the server fixes for every dataset of a chart kind. */
  function BorderWidthFor(chartType: ChartType): real {
    if chartType == Line then 2.0 else 1.0
  }

  /** The body of the `datasets.map((ds, index) => ...)` callback: keep label
      and data, fill a falsy background colour, fill a falsy border colour on
      line charts only, and fix the stroke width. */
  function NormalizeDataset(chartType: ChartType, ds: Dataset, index: nat): (r: Dataset)
    ensures r.seriesLabel == ds.seriesLabel && r.data == ds.data
    ensures ds.backgroundColor.Some? && IsTruthyColor(ds.backgroundColor.value) ==>
      r.backgroundColor == ds.backgroundColor
    ensures ds.backgroundColor.None? || !IsTruthyColor(ds.backgroundColor.value) ==>
      r.backgroundColor == Some(GenerateColors(chartType, |ds.data|, index))
    ensures IsTruthyText(ds.borderColor) ==> r.borderColor == ds.borderColor
    ensures !IsTruthyText(ds.borderColor) && chartType == Line ==> r.borderColor == Some(GenerateLineColor(index))
    ensures !IsTruthyText(ds.borderColor) && chartType != Line ==> r.borderColor.None?
    ensures IsNormalizedDataset(chartType, r)
  {
    Dataset(
      ds.seriesLabel,
      ds.data,
      if ds.backgroundColor.Some? && IsTruthyColor(ds.backgroundColor.value) then ds.backgroundColor
      else Some(GenerateColors(chartType, |ds.data|, index)),
      if IsTruthyText(ds.borderColor) then ds.borderColor
      else if chartType == Line then Some(GenerateLineColor(index))
      else None,
      Some(BorderWidthFor(chartType)))
  }

  /** What every dataset of a normalised chart satisfies: a truthy background
      colour, the kind's fixed stroke width, and a border colour that is
      truthy when present and always present on line charts. */
  predicate IsNormalizedDataset(chartType: ChartType, ds: Dataset) {
    && ds.backgroundColor.Some? && IsTruthyColor(ds.backgroundColor.value)
    && ds.borderWidth == Some(BorderWidthFor(chartType))
    && (ds.borderColor.Some? ==> ds.borderColor.value != "")
    && (chartType == Line ==> ds.borderColor.Some?)
  }

  predicate IsNormalized(c: ChartData) {
    forall i :: 0 <= i < |c.datasets| ==> IsNormalizedDataset(c.chartType, c.datasets[i])
  }

  /** The `processedData` of the `display-chart` handler. */
  function Normalize(c: ChartData): (r: ChartData)
    ensures r.chartType == c.chartType && r.title == c.title && r.labels == c.labels
    ensures |r.datasets| == |c.datasets|
    ensures forall i :: 0 <= i < |c.datasets| ==>
      r.datasets[i].seriesLabel == c.datasets[i].seriesLabel && r.datasets[i].data == c.datasets[i].data
    ensures forall i :: 0 <= i < |c.datasets| ==> r.datasets[i] == NormalizeDataset(c.chartType, c.datasets[i], i)
    ensures IsNormalized(r)
  {
    ChartData(
      c.chartType,
      c.title,
      c.labels,
      seq(|c.datasets|, i requires 0 <= i < |c.datasets| => NormalizeDataset(c.chartType, c.datasets[i], i)))
  }

  /** The `display-chart` handler: the normalised chart, serialised by
      `stringify` (`JSON.stringify`), as the one text block of the result. */
  function HandleDisplayChart(args: ChartData, stringify: ChartData -> string): (r: CallToolResult)
    ensures r.content == Some([Text(stringify(Normalize(args)))])
  {
    CallToolResult(Some([Text(stringify(Normalize(args)))]))
  }

  // ---------------------------------------------------------------------
  // Properties of the colour assigners

  /** Per-point colours start with the palette's shades in order and then
      repeat with period six, so every point is coloured whatever `count`. */
  lemma {:induction false} PerPointColorsCycle(chartType: ChartType, count: nat, datasetIndex: nat)
    requires chartType == Pie || chartType == Doughnut
    ensures forall i :: 0 <= i < count ==>
      GenerateColors(chartType, count, datasetIndex).colors[i] == ColorPalettes[datasetIndex % 5][i % 6]
    ensures forall i :: 0 <= i < count && i + 6 < count ==>
      GenerateColors(chartType, count, datasetIndex).colors[i + 6] == GenerateColors(chartType, count, datasetIndex).colors[i]
  {
    var r := GenerateColors(chartType, count, datasetIndex);
    forall i | 0 <= i < count && i + 6 < count
      ensures r.colors[i + 6] == r.colors[i]
    {
      assert (i + 6) % 6 == i % 6;
    }
  }

  /** Six consecutive points of a pie or doughnut dataset never share a colour. */
  lemma {:induction false} PerPointColorsDistinct(chartType: ChartType, count: nat, datasetIndex: nat, i: nat, j: nat)
    requires chartType == Pie || chartType == Doughnut
    requires i < j < count && j - i < 6
    ensures GenerateColors(chartType, count, datasetIndex).colors[i] != GenerateColors(chartType, count, datasetIndex).colors[j]
  {
    PerPointColorsCycle(chartType, count, datasetIndex);
    if i % 6 < j % 6 {
      PalettesHaveDistinctShades(datasetIndex % 5, i % 6, j % 6);
    } else {
      PalettesHaveDistinctShades(datasetIndex % 5, j % 6, i % 6);
    }
  }

  /** Proof aid only, with no counterpart in the app: for each palette, a
      character position at which its shades strictly increase, used to show
      that the six shades of a palette are pairwise distinct. */
  const ShadeKeys: seq<nat> := [1, 1, 2, 3, 1]

  lemma ShadesIncrease(p: nat, a: nat)
    requires p < 5 && a < 5
    ensures ColorPalettes[p][a][ShadeKeys[p]] < ColorPalettes[p][a + 1][ShadeKeys[p]]
  {
  }

  lemma {:induction false} PalettesHaveDistinctShades(p: nat, a: nat, b: nat)
    requires p < 5 && a < b < 6
    ensures ColorPalettes[p][a][ShadeKeys[p]] < ColorPalettes[p][b][ShadeKeys[p]]
    ensures ColorPalettes[p][a] != ColorPalettes[p][b]
    decreases b - a
  {
    ShadesIncrease(p, a);
    if a + 1 < b {
      PalettesHaveDistinctShades(p, a + 1, b);
    }
  }

  /** The stroke colour of line series `index` is the first shade of the
      palette that series' fill colour comes from, so a line series is drawn
      in one hue, and it is the single colour `generateColors` gives a line
      series whatever its point count. */
  lemma {:induction false} LineColorIsFirstShade(index: nat, count: nat)
    ensures GenerateLineColor(index) == LineColors[index % 5]
    ensures GenerateLineColor(index) == ColorPalettes[index % 5][0]
    ensures GenerateColors(Line, count, index) == Single(GenerateLineColor(index))
  {
  }

  /** Five consecutive line series get five different stroke colours. */
  lemma {:induction false} LineColorsDistinct(i: nat, j: nat)
    requires i < j < i + 5
    ensures GenerateLineColor(i) != GenerateLineColor(j)
  {
  }

  // ---------------------------------------------------------------------
  // Properties of the normalisation

  /** A normalised chart is a fixed point of the normalisation: nothing is
      re-assigned once it is present. */
  lemma {:induction false} NormalizeFixesNormalized(c: ChartData)
    requires IsNormalized(c)
    ensures Normalize(c) == c
  {
  }

  /** Normalising twice is normalising once. */
  lemma {:induction false} NormalizeIdempotent(c: ChartData)
    ensures Normalize(Normalize(c)) == Normalize(c)
  {
  }

  /** A missing or empty-string background colour is filled by
      `generateColors`; for pie and doughnut charts that gives one colour per
      data point. */
  lemma {:induction false} FilledBackgroundPerPoint(c: ChartData, i: nat)
    requires i < |c.datasets|
    requires c.chartType == Pie || c.chartType == Doughnut
    requires c.datasets[i].backgroundColor == None || c.datasets[i].backgroundColor == Some(Single(""))
    ensures var bg := Normalize(c).datasets[i].backgroundColor;
      && bg.Some? && bg.value.PerPoint?
      && |bg.value.colors| == |c.datasets[i].data|
      && forall k :: 0 <= k < |c.datasets[i].data| ==> bg.value.colors[k] == ColorPalettes[i % 5][k % 6]
  {
  }

  /** Border colour and stroke width of a normalised dataset: a line series
      always has a border colour (its own non-empty one or the assigned
      one) and width 2; any other series keeps only a non-empty border
      colour of its own and has width 1. */
  lemma {:induction false} NormalizedStroke(c: ChartData, i: nat)
    requires i < |c.datasets|
    ensures c.chartType == Line ==>
      Normalize(c).datasets[i].borderColor.Some? && Normalize(c).datasets[i].borderWidth == Some(2.0)
    ensures c.chartType == Line && !IsTruthyText(c.datasets[i].borderColor) ==>
      Normalize(c).datasets[i].borderColor == Some(GenerateLineColor(i))
    ensures c.chartType != Line ==>
      Normalize(c).datasets[i].borderWidth == Some(1.0) &&
      (Normalize(c).datasets[i].borderColor.Some? <==> IsTruthyText(c.datasets[i].borderColor))
    ensures IsTruthyText(c.datasets[i].borderColor) ==>
      Normalize(c).datasets[i].borderColor == c.datasets[i].borderColor
  {
  }

  /** A chart with one pie dataset of three points and no colours gets the
      first three shades of the blue palette. */
  lemma PieScenario()
    ensures
      var c := ChartData(Pie, "T", ["a", "b", "c"], [Dataset("s1", [1.0, 2.0, 3.0], None, None, None)]);
      Normalize(c).datasets[0] ==
        Dataset("s1", [1.0, 2.0, 3.0], Some(PerPoint(["#3b82f6", "#60a5fa", "#93c5fd"])), None, Some(1.0))
  {
    var c := ChartData(Pie, "T", ["a", "b", "c"], [Dataset("s1", [1.0, 2.0, 3.0], None, None, None)]);
    var g := GenerateColors(Pie, 3, 0);
    assert g.colors[0] == "#3b82f6" && g.colors[1] == "#60a5fa" && g.colors[2] == "#93c5fd";
    assert g.colors == ["#3b82f6", "#60a5fa", "#93c5fd"];
  }

  /** A bar dataset without colours gets the single colour `#3b82f6`,
      width 1 and no border colour. */
  lemma BarScenario()
    ensures
      var c := ChartData(Bar, "T", ["a"], [Dataset("s1", [5.0], None, None, None)]);
      Normalize(c).datasets[0] == Dataset("s1", [5.0], Some(Single("#3b82f6")), None, Some(1.0))
  {
  }
}
