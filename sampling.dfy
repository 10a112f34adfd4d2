/** Sampling a colour class, the one-shot `sample_color` wrapper and the grid
    that `plot_colors` fills. The random source is replaced by explicit draws. */
module Sampling {
  import opened Boxes
  import opened ColorClasses

  /** Side of the preview grid. */
  const NColors: nat := 10

  /** The random numbers one call of `sample` consumes: the three uniform
      channel draws and, for red/light only, the uniform offset. */
  datatype Draw = Draw(channels: Rgb, offset: real)

  /** What the random source guarantees: each channel in `[low, high)` of the
      class's box, the offset in `[-0.05, 0.05]`. */
  predicate ValidDraw(c: ColorClass, d: Draw) {
    InHalfOpen(c.space, d.channels) && -0.05 <= d.offset <= 0.05
  }

  /** `rgb[2] = rgb[1] + u`: green and red are kept, and blue is set so that
      blue minus green is exactly the offset. */
  function RedLightOverride(rgb: Rgb, u: real): (r: Rgb)
    ensures r[0] == rgb[0] && r[1] == rgb[1]
    ensures r[2] - r[1] == u
  {
    rgb[2 := rgb[1] + u]
  }

  /** The triple `sample` returns for the given draws: the override for
      red/light, then the clip into the box. Channel by channel: red and green
      are their draws clipped, blue is its draw clipped, except for red/light,
      where it is green's draw plus the offset, clipped. */
  function SampleOf(c: ColorClass, d: Draw): (r: Rgb)
    ensures r[0] == Min(Max(d.channels[0], c.space.low[0]), c.space.high[0])
    ensures r[1] == Min(Max(d.channels[1], c.space.low[1]), c.space.high[1])
    ensures r[2] == Min(Max(if IsRedLight(c) then d.channels[1] + d.offset else d.channels[2], c.space.low[2]), c.space.high[2])
  {
    Clip(if IsRedLight(c) then RedLightOverride(d.channels, d.offset) else d.channels, c.space)
  }

  /** A box in which the override cannot push blue up to its `high`: green's
      upper bound plus 0.05 does not exceed blue's. */
  predicate OverrideBelowHigh(b: Box) {
    b.high[1] + 0.05 <= b.high[2]
  }

  /** A box in which the override cannot leave the blue channel's interval on
      either side: green's interval widened by 0.05 lies inside blue's. */
  predicate OverrideFits(b: Box) {
    b.low[2] <= b.low[1] - 0.05 && OverrideBelowHigh(b)
  }

  /** The assertion fails only if a channel is clipped down to `high`.
      In-range draws stay below `high`, and for red/light so does the
      overridden blue when the box is `OverrideBelowHigh`; so for any such box
      the sample is in the half-open box, whatever the lower bounds do. */
  lemma SampleInBox(c: ColorClass, d: Draw)
    requires ValidDraw(c, d)
    requires IsRedLight(c) ==> OverrideBelowHigh(c.space)
    ensures InHalfOpen(c.space, SampleOf(c, d))
  {
    var pre := if IsRedLight(c) then RedLightOverride(d.channels, d.offset) else d.channels;
    assert forall i :: 0 <= i < 3 ==> pre[i] < c.space.high[i];
    ClipHalfOpen(pre, c.space);
  }

  /** For any class whose box fits the override on both sides, the clip never
      changes an in-range draw: the sample is the (overridden) draw itself. */
  lemma ClipIsIdentityOnDraws(c: ColorClass, d: Draw)
    requires ValidDraw(c, d)
    requires IsRedLight(c) ==> OverrideFits(c.space)
    ensures SampleOf(c, d) == if IsRedLight(c) then RedLightOverride(d.channels, d.offset) else d.channels
  {
    var pre := if IsRedLight(c) then RedLightOverride(d.channels, d.offset) else d.channels;
    assert InClosed(c.space, pre) by {
      if IsRedLight(c) {
        assert c.space.low[2] <= pre[2] <= c.space.high[2];
      }
    }
    ClipKeepsClosed(pre, c.space);
  }

  /** The red/light box fits the override with no slack at all, in real
      arithmetic: blue's interval is green's widened by exactly 0.05 on each
      side. Only the upper equality is needed for the assertion. */
  lemma RedLightBoxIsTight(c: ColorClass)
    requires Constructed(c) && IsRedLight(c)
    ensures c.space.low[2] == c.space.low[1] - 0.05 && c.space.high[2] == c.space.high[1] + 0.05
    ensures OverrideFits(c.space) && OverrideBelowHigh(c.space)
  {
  }

  /** The assertion at the end of `sample` never fails: for every class the
      constructor can build and all in-range draws, the sample is in the
      half-open box; for red/light blue minus green is the offset, hence within
      0.05 of zero, and otherwise the sample is the draw unchanged. */
  lemma SampleContained(c: ColorClass, d: Draw)
    requires Constructed(c)
    requires ValidDraw(c, d)
    ensures Contains(c, SampleOf(c, d))
    ensures IsRedLight(c) ==> SampleOf(c, d)[2] - SampleOf(c, d)[1] == d.offset
    ensures IsRedLight(c) ==> -0.05 <= SampleOf(c, d)[2] - SampleOf(c, d)[1] <= 0.05
    ensures !IsRedLight(c) ==> SampleOf(c, d) == d.channels
  {
    if IsRedLight(c) {
      RedLightBoxIsTight(c);
    }
    SampleInBox(c, d);
    ClipIsIdentityOnDraws(c, d);
  }

  /** Samples also pass `contains_old` when the box test is the half-open one. */
  lemma SampleSatisfiesContainsOld(c: ColorClass, d: Draw)
    requires Constructed(c)
    requires ValidDraw(c, d)
    ensures ContainsOld(c, (x: Rgb) => Contains(c, x), SampleOf(c, d))
  {
    SampleContained(c, d);
  }

  /** Why the draws must stay below `high`: the clip is inclusive and
      `contains` is not, so a draw on the upper corner of a box survives the
      clip and fails the assertion. */
  lemma DrawAtHighFailsAssertion()
    ensures var c := NewColor("blue", "dark").value;
      var d := Draw(c.space.high, 0.0);
      !Contains(c, SampleOf(c, d))
  {
    var c := NewColor("blue", "dark").value;
    ClipReachesHigh(c.space);
  }

  /** `Color.sample`, with the random draws passed in. */
  method Sample(c: ColorClass, d: Draw) returns (rgb: Rgb)
    requires Constructed(c)
    requires ValidDraw(c, d)
    ensures rgb == SampleOf(c, d)
    ensures Contains(c, rgb)
    ensures IsRedLight(c) ==> -0.05 <= rgb[2] - rgb[1] <= 0.05
    ensures !IsRedLight(c) ==> rgb == d.channels
  {
    rgb := d.channels;
    if c.color == "red" && c.shade == "light" {
      rgb := rgb[2 := rgb[1] + d.offset];
    }
    rgb := Clip(rgb, c.space);
    SampleContained(c, d);
    assert Contains(c, rgb);
  }

  /** `sample_color`: build the class, fail as the constructor does, or
      return one sample of it. */
  method SampleColor(color: string, shade: string, d: Draw) returns (r: Result<Rgb>)
    requires NewColor(color, shade).Ok? ==> ValidDraw(NewColor(color, shade).value, d)
    ensures NewColor(color, shade).Err? ==> r == Err(NewColor(color, shade).error)
    ensures NewColor(color, shade).Ok? ==>
      r == Ok(SampleOf(NewColor(color, shade).value, d)) && Contains(NewColor(color, shade).value, r.value)
  {
    var made := NewColor(color, shade);
    if made.Err? {
      return Err(made.error);
    }
    var rgb := Sample(made.value, d);
    return Ok(rgb);
  }

  /** The draws of cell `(i, j)`: the supply is consumed in row-major order. */
  function CellDraw(supply: seq<Draw>, i: nat, j: nat): Draw
    requires i < NColors && j < NColors && |supply| == NColors * NColors
  {
    supply[i * NColors + j]
  }

  /** `array[i, j, :] = rgb`: the three channels of one cell are set and
      every other cell keeps its value. */
  method SetCell(a: array3<real>, i: nat, j: nat, rgb: Rgb)
    requires i < a.Length0 && j < a.Length1 && a.Length2 == 3
    modifies a
    ensures forall k :: 0 <= k < 3 ==> a[i, j, k] == rgb[k]
    ensures forall i', j', k :: 0 <= i' < a.Length0 && 0 <= j' < a.Length1 && 0 <= k < 3 && (i', j') != (i, j) ==>
      a[i', j', k] == old(a[i', j', k])
  {
    a[i, j, 0], a[i, j, 1], a[i, j, 2] := rgb[0], rgb[1], rgb[2];
  }

  /** One row of the loop of `plot_colors`: `array[i, j, :] = sample()` for
      every column `j` of row `i`; the other rows are left as they were. */
  method FillRow(c: ColorClass, a: array3<real>, supply: seq<Draw>, i: nat)
    requires Constructed(c)
    requires a.Length0 == NColors && a.Length1 == NColors && a.Length2 == 3
    requires |supply| == NColors * NColors
    requires forall n :: 0 <= n < |supply| ==> ValidDraw(c, supply[n])
    requires i < NColors
    modifies a
    ensures forall j, k :: 0 <= j < NColors && 0 <= k < 3 ==> a[i, j, k] == SampleOf(c, CellDraw(supply, i, j))[k]
    ensures forall i', j, k :: 0 <= i' < NColors && i' != i && 0 <= j < NColors && 0 <= k < 3 ==>
      a[i', j, k] == old(a[i', j, k])
  {
    for j := 0 to NColors
      invariant forall j', k {:trigger a[i, j', k]} :: 0 <= j' < j && 0 <= k < 3 ==>
        a[i, j', k] == SampleOf(c, CellDraw(supply, i, j'))[k]
      invariant forall i', j', k {:trigger a[i', j', k]} :: 0 <= i' < NColors && i' != i && 0 <= j' < NColors && 0 <= k < 3 ==>
        a[i', j', k] == old(a[i', j', k])
    {
      var rgb := Sample(c, CellDraw(supply, i, j));
      SetCell(a, i, j, rgb);
    }
  }

  /** The loop of `plot_colors`: every row filled in turn. */
  method FillGrid(c: ColorClass, a: array3<real>, supply: seq<Draw>)
    requires Constructed(c)
    requires a.Length0 == NColors && a.Length1 == NColors && a.Length2 == 3
    requires |supply| == NColors * NColors
    requires forall n :: 0 <= n < |supply| ==> ValidDraw(c, supply[n])
    modifies a
    ensures forall i, j, k :: 0 <= i < NColors && 0 <= j < NColors && 0 <= k < 3 ==>
      a[i, j, k] == SampleOf(c, CellDraw(supply, i, j))[k]
  {
    for i := 0 to NColors
      invariant forall i', j, k :: 0 <= i' < i && 0 <= j < NColors && 0 <= k < 3 ==>
        a[i', j, k] == SampleOf(c, CellDraw(supply, i', j))[k]
    {
      FillRow(c, a, supply, i);
    }
  }

  /** Every cell of a filled grid passes `contains`. */
  lemma GridCellsContained(c: ColorClass, a: array3<real>, supply: seq<Draw>)
    requires Constructed(c)
    requires a.Length0 == NColors && a.Length1 == NColors && a.Length2 == 3
    requires |supply| == NColors * NColors
    requires forall n :: 0 <= n < |supply| ==> ValidDraw(c, supply[n])
    requires forall i, j, k :: 0 <= i < NColors && 0 <= j < NColors && 0 <= k < 3 ==>
      a[i, j, k] == SampleOf(c, CellDraw(supply, i, j))[k]
    ensures forall i, j :: 0 <= i < NColors && 0 <= j < NColors ==>
      Contains(c, [a[i, j, 0], a[i, j, 1], a[i, j, 2]])
  {
    forall i, j | 0 <= i < NColors && 0 <= j < NColors
      ensures Contains(c, [a[i, j, 0], a[i, j, 1], a[i, j, 2]])
    {
      SampleContained(c, CellDraw(supply, i, j));
      assert [a[i, j, 0], a[i, j, 1], a[i, j, 2]] == SampleOf(c, CellDraw(supply, i, j));
    }
  }

  /** `plot_colors` up to the display: one class built once, a zeroed
      `NColors x NColors x 3` array, every cell set to a sample of the class.
      The array is what would be shown. */
  method PlotColors(color: string, shade: string, supply: seq<Draw>) returns (r: Result<array3<real>>)
    requires |supply| == NColors * NColors
    requires NewColor(color, shade).Ok? ==>
      forall n :: 0 <= n < |supply| ==> ValidDraw(NewColor(color, shade).value, supply[n])
    ensures NewColor(color, shade).Err? ==> r == Err(NewColor(color, shade).error)
    ensures NewColor(color, shade).Ok? ==> r.Ok? && fresh(r.value)
    ensures r.Ok? ==> r.value.Length0 == NColors && r.value.Length1 == NColors && r.value.Length2 == 3
    ensures r.Ok? ==> forall i, j, k :: 0 <= i < NColors && 0 <= j < NColors && 0 <= k < 3 ==>
      r.value[i, j, k] == SampleOf(NewColor(color, shade).value, CellDraw(supply, i, j))[k]
    ensures r.Ok? ==> forall i, j :: 0 <= i < NColors && 0 <= j < NColors ==>
      Contains(NewColor(color, shade).value, [r.value[i, j, 0], r.value[i, j, 1], r.value[i, j, 2]])
  {
    var made := NewColor(color, shade);
    if made.Err? {
      return Err(made.error);
    }
    var colorClass := made.value;
    var a := new real[NColors, NColors, 3]((i, j, k) => 0.0);
    FillGrid(colorClass, a, supply);
    GridCellsContained(colorClass, a, supply);
    return Ok(a);
  }
}
