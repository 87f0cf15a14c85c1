/** `create_countdown_image`: the whole sequence of drawing calls for one
    run, from the gradient to the Rockstar mark, and the file name it is
    saved under. The clock is read twice, once for the progress and once for
    the file name, and both readings are parameters. Whether a logo file is
    there, and its size, is a parameter too. Only a missing file selects the
    drawn fallback: any other failure to open a logo ends the run. */
module Renderer {
  import opened Wrappers
  import opened Calendar
  import opened Drawing
  import opened PyNumbers
  import opened Progress
  import opened Gradient
  import opened Fonts
  import opened TitleStamp
  import opened ProgressBar
  import opened Texts

  /** What opening a logo file gives. */
  datatype Asset = Found(width: int, height: int) | NotFound | Unreadable

  predicate ValidAsset(a: Asset) {
    a.Found? ==> a.width > 0 && a.height > 0
  }

  const GtaLogoFile := "gta_vi_logo.png"
  const RockstarLogoFile := "rockstar_logo.png"
  const LogoWidth := 600
  const LogoTop := 160
  const RockstarSize := 70
  const RockstarCorner := 965

  /** `int(height * (600 / width))`: the height that keeps the aspect ratio. */
  function LogoHeight(width: int, height: int): (h: int)
    requires width > 0 && height > 0
    ensures h >= 0
    ensures h * width <= height * LogoWidth < (h + 1) * width
  {
    TruncDiv(height * LogoWidth, width)
  }

  /** The title logo ends the run when it cannot be read, or when it is so
      wide and flat that its scaled height is 0, which the resampler refuses
      with an error that is not a missing file. */
  predicate TitleLogoFails(gta: Asset)
    requires ValidAsset(gta)
  {
    gta.Unreadable? || (gta.Found? && LogoHeight(gta.width, gta.height) == 0)
  }

  /** The title: the logo scaled to 600 wide and centred, or the "VI" stamp
      in the title font. */
  function TitleOps(gta: Asset, loads: string -> bool, fonts: FontSet): seq<Op>
    requires ValidAsset(gta) && !TitleLogoFails(gta)
  {
    if gta.Found? then
      [Paste(GtaLogoFile, (CanvasSize - LogoWidth) / 2, LogoTop, LogoWidth, LogoHeight(gta.width, gta.height))]
    else StampOps(StampOffsets(), TitleFont(loads, fonts.large))
  }

  /** The corner mark: the logo at 70x70, or a white ring with "R*" in it. */
  function RockstarOps(rockstar: Asset, fonts: FontSet): seq<Op>
    requires !rockstar.Unreadable?
  {
    if rockstar.Found? then
      [Paste(RockstarLogoFile, RockstarCorner, RockstarCorner, RockstarSize, RockstarSize)]
    else
      [ Ellipse(Box(965, 965, 1035, 1035), White, 4),
        Text(1000, 1000, "R*", fonts.small, White, MiddleMiddle) ]
  }

  /** What one successful run produces. */
  datatype Rendering = Rendering(ops: seq<Op>, filename: string, progress: Snapshot)

  /** The run, as a value: the first unreadable logo, in the order the code
      opens them, ends it with that file's name. */
  function Composition(today: Date, saveDate: Date, loads: string -> bool, gta: Asset, rockstar: Asset)
    : Result<Rendering, string>
    requires ValidDate(today) && ValidDate(saveDate) && ValidAsset(gta) && ValidAsset(rockstar)
  {
    if TitleLogoFails(gta) then Err(GtaLogoFile)
    else if rockstar.Unreadable? then Err(RockstarLogoFile)
    else
      var progress := CalculateProgress(today);
      var fonts := ResolveFonts(loads);
      Ok(Rendering(
        GradientOps() + TitleOps(gta, loads, fonts) + BarOps(progress.percentage)
          + ReadoutOps(progress, fonts) + RockstarOps(rockstar, fonts),
        Filename(saveDate), progress))
  }

  // ---------------------------------------------------------------------------
  // Properties of a run.

  /** A run fails exactly when a logo file exists but cannot be used, and the
      title logo is reported first; a flat title logo fails exactly when 600
      times its height is below its width. */
  lemma CompositionErrors(today: Date, saveDate: Date, loads: string -> bool, gta: Asset, rockstar: Asset)
    requires ValidDate(today) && ValidDate(saveDate) && ValidAsset(gta) && ValidAsset(rockstar)
    ensures var r := Composition(today, saveDate, loads, gta, rockstar);
      (r.Err? <==> TitleLogoFails(gta) || rockstar.Unreadable?)
      && (r.Err? ==> r.error == (if TitleLogoFails(gta) then GtaLogoFile else RockstarLogoFile))
    ensures gta.Found? ==> (TitleLogoFails(gta) <==> gta.height * LogoWidth < gta.width)
  {
  }

  /** The drawing layers, bottom to top: the 1080 scanlines first, the corner
      mark last, the readouts just before it. */
  lemma CompositionLayers(today: Date, saveDate: Date, loads: string -> bool, gta: Asset, rockstar: Asset)
    requires ValidDate(today) && ValidDate(saveDate) && ValidAsset(gta) && ValidAsset(rockstar)
    requires !TitleLogoFails(gta) && !rockstar.Unreadable?
    ensures var r := Composition(today, saveDate, loads, gta, rockstar).value;
      var n, m := |r.ops|, |RockstarOps(rockstar, ResolveFonts(loads))|;
      n >= CanvasSize + 5 + m
      && r.ops[..CanvasSize] == GradientOps()
      && r.ops[n - m..] == RockstarOps(rockstar, ResolveFonts(loads))
      && r.ops[n - m - 5..n - m] == ReadoutOps(r.progress, ResolveFonts(loads))
  {
    var p := CalculateProgress(today);
    var fonts := ResolveFonts(loads);
    var g, t, b, d, k := GradientOps(), TitleOps(gta, loads, fonts), BarOps(p.percentage),
      ReadoutOps(p, fonts), RockstarOps(rockstar, fonts);
    var ops := g + t + b + d + k;
    assert ops[..CanvasSize] == g;
    assert ops[|ops| - |k|..] == k;
    assert ops[|ops| - |k| - 5..|ops| - |k|] == d;
  }

  /** The picture shows the numbers: two runs with the same logos that draw
      the same calls report the same progress. */
  lemma CompositionShowsProgress(t1: Date, t2: Date, s1: Date, s2: Date, loads: string -> bool,
                                 gta: Asset, rockstar: Asset)
    requires ValidDate(t1) && ValidDate(t2) && ValidDate(s1) && ValidDate(s2)
    requires ValidAsset(gta) && ValidAsset(rockstar) && !TitleLogoFails(gta) && !rockstar.Unreadable?
    requires Composition(t1, s1, loads, gta, rockstar).value.ops == Composition(t2, s2, loads, gta, rockstar).value.ops
    ensures CalculateProgress(t1) == CalculateProgress(t2)
  {
    CompositionLayers(t1, s1, loads, gta, rockstar);
    CompositionLayers(t2, s2, loads, gta, rockstar);
    ReadoutsDetermineSnapshot(CalculateProgress(t1), CalculateProgress(t2), ResolveFonts(loads), ResolveFonts(loads));
  }

  /** With neither logo present: 1080 scanlines, 76 stamps, 6 outlines, the
      fill once any progress is shown, 5 readouts and the 2-call corner mark. */
  lemma FallbackCallCount(today: Date, saveDate: Date, loads: string -> bool)
    requires ValidDate(today) && ValidDate(saveDate)
    ensures var r := Composition(today, saveDate, loads, NotFound, NotFound).value;
      |r.ops| == 1080 + 76 + 6 + (if r.progress.percentage >= 1 then 1 else 0) + 5 + 2
  {
    StampOffsetsCount();
  }

  /** The scaled title logo sits centred at 240 across, 600 wide, and is as
      tall as the aspect ratio allows, rounded down. */
  lemma LogoPlacement(w: int, h: int, loads: string -> bool, fonts: FontSet)
    requires w > 0 && 600 * h >= w
    ensures var op := TitleOps(Found(w, h), loads, fonts)[0];
      op.left == 240 && op.left + op.pasteWidth + op.left == CanvasSize && op.top == 160
      && 1 <= op.pasteHeight && op.pasteHeight * w <= 600 * h < (op.pasteHeight + 1) * w
  {
  }

  /** The title block: the scaled logo, or the stamp in the title font. */
  method DrawTitle(canvas: Canvas, gta: Asset, loads: string -> bool, fonts: FontSet)
    requires ValidAsset(gta) && !TitleLogoFails(gta)
    modifies canvas
    ensures canvas.ops == old(canvas.ops) + TitleOps(gta, loads, fonts)
  {
    if gta.Found? {
      canvas.Draw(Paste(GtaLogoFile, (CanvasSize - LogoWidth) / 2, LogoTop, LogoWidth, LogoHeight(gta.width, gta.height)));
    } else {
      DrawStamp(canvas, TitleFont(loads, fonts.large));
    }
  }

  /** The five `draw.text` calls after the bar. */
  method DrawReadouts(canvas: Canvas, progress: Snapshot, fonts: FontSet)
    modifies canvas
    ensures canvas.ops == old(canvas.ops) + ReadoutOps(progress, fonts)
  {
    canvas.Draw(Text(540, 760, PercentText(progress.percentage), fonts.large, White, MiddleMiddle));
    canvas.Draw(Text(540, 940, DaysText(progress.daysRemaining), fonts.small, White, MiddleMiddle));
    canvas.Draw(Text(540, 10005, ComingLabel, fonts.medium, White, MiddleMiddle));
    canvas.Draw(Text(540, 870, ReleaseLabel, fonts.small, White, MiddleMiddle));
    canvas.Draw(Text(20, 1060, Watermark, fonts.supersmall, Lilac, LeftMiddle));
  }

  /** The corner mark: the logo, or the ring and "R*". */
  method DrawRockstar(canvas: Canvas, rockstar: Asset, fonts: FontSet)
    requires !rockstar.Unreadable?
    modifies canvas
    ensures canvas.ops == old(canvas.ops) + RockstarOps(rockstar, fonts)
  {
    if rockstar.Found? {
      canvas.Draw(Paste(RockstarLogoFile, RockstarCorner, RockstarCorner, RockstarSize, RockstarSize));
    } else {
      canvas.Draw(Ellipse(Box(965, 965, 1035, 1035), White, 4));
      canvas.Draw(Text(1000, 1000, "R*", fonts.small, White, MiddleMiddle));
    }
  }

  /** The run. */
  method CreateCountdownImage(today: Date, saveDate: Date, loads: string -> bool, gta: Asset, rockstar: Asset)
    returns (canvas: Canvas, result: Result<(string, Snapshot), string>)
    requires ValidDate(today) && ValidDate(saveDate) && ValidAsset(gta) && ValidAsset(rockstar)
    ensures fresh(canvas)
    ensures var c := Composition(today, saveDate, loads, gta, rockstar);
      (result.Err? <==> c.Err?)
      && (result.Err? ==> result.error == c.error)
      && (result.Ok? ==> result.value == (c.value.filename, c.value.progress) && canvas.ops == c.value.ops)
  {
    canvas := new Canvas();
    DrawGradient(canvas);
    ghost var layers := GradientOps();
    assert canvas.ops == layers;
    var progress := CalculateProgress(today);
    var fonts := LoadFonts(loads);
    if gta.Unreadable? || (gta.Found? && LogoHeight(gta.width, gta.height) == 0) {
      return canvas, Err(GtaLogoFile);
    }
    DrawTitle(canvas, gta, loads, fonts);
    layers := layers + TitleOps(gta, loads, fonts);
    DrawBar(canvas, progress.percentage);
    layers := layers + BarOps(progress.percentage);
    DrawReadouts(canvas, progress, fonts);
    layers := layers + ReadoutOps(progress, fonts);
    assert canvas.ops == layers;
    if rockstar.Unreadable? {
      return canvas, Err(RockstarLogoFile);
    }
    DrawRockstar(canvas, rockstar, fonts);
    layers := layers + RockstarOps(rockstar, fonts);
    assert layers == GradientOps() + TitleOps(gta, loads, fonts) + BarOps(progress.percentage)
      + ReadoutOps(progress, fonts) + RockstarOps(rockstar, fonts);
    var filename := Filename(saveDate);
    result := Ok((filename, progress));
  }
}
