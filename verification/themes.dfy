/** The three themes' drawing routines, returning the geometry they would draw
    instead of issuing canvas calls. A frame's scene lists its layers bottom
    first; images are referred to by their index in the preloaded image list. */
module Themes {
  import opened Wrappers
  import opened Pixels
  import opened Layout
  import opened Sinusoid

  /** A `rect(x, y, w, h)`. */
  datatype Rect = Rect(x: real, y: real, w: real, h: real)

  /** A filled `arc` of a full turn, with the alpha of its fill colour. */
  datatype Circle = Circle(cx: real, cy: real, radius: real, alpha: real)

  /** A ring segment: an arc of radius `innerRadius` clockwise from `fromAngle`
      to `toAngle`, then one of radius `outerRadius` back, anticlockwise. */
  datatype Wedge = Wedge(cx: real, cy: real, innerRadius: real, outerRadius: real,
                         fromAngle: real, toAngle: real)

  /** Why a frame is not drawn: `drawImage` of an image the list does not hold
      throws a TypeError, and reading back the pixels of a canvas with no area
      throws an IndexSizeError. */
  datatype DrawError = MissingImage(index: nat) | EmptyCanvas

  datatype PyreScene = PyreScene(
    background: string,
    circleLayerAlpha: real,
    circles: seq<Circle>,
    cutout: nat,
    barFill: string,
    barStroke: string,
    bars: seq<Rect>,
    waves: seq<Path>,
    topLayer: nat)

  datatype Ror2Scene = Ror2Scene(
    background: string,
    backdrop: nat,
    fill: string,
    wedges: seq<Wedge>,
    foreground: nat)

  datatype Scene = Pyre(pyre: PyreScene) | Ror2(ror2: Ror2Scene) | Hk(background: string)

  // ---------------------------------------------------------------------------
  // Pyre
  // ---------------------------------------------------------------------------

  /** The circle drawn for a bin of magnitude `v`: anchored at (125, 500), with
      radius `1.5 * (v/255) * (canvasHeight/3)`, from 0 for a silent bin to half
      the canvas height for a full one. Its fill alpha `0.25 - (v/255)/3` is
      positive only up to magnitude 191. */
  function PyreCircle(canvasHeight: nat, v: int): (c: Circle)
    requires IsByte(v)
    ensures c.cx == 125.0 && c.cy == 500.0
    ensures 0.0 <= c.radius <= canvasHeight as real / 2.0
    ensures v == 255 ==> c.radius == canvasHeight as real / 2.0
    ensures v == 0 ==> c.radius == 0.0
    ensures c.alpha > 0.0 <==> v <= 191
  {
    var percent := v as real / 255.0;
    var maxRadius := canvasHeight as real / 3.0;
    var circleRadius := percent * maxRadius;
    assert circleRadius <= maxRadius by {
      assert maxRadius - circleRadius == (1.0 - percent) * maxRadius;
    }
    Circle(125.0, 500.0, circleRadius * 1.5, 0.25 - percent / 3.0)
  }

  /** A louder bin draws a strictly larger circle. */
  lemma PyreCircleGrows(canvasHeight: nat, v: int, w: int)
    requires IsByte(v) && IsByte(w) && v < w && canvasHeight > 0
    ensures PyreCircle(canvasHeight, v).radius < PyreCircle(canvasHeight, w).radius
  {
    var h := canvasHeight as real / 3.0;
    assert (w as real / 255.0) * h - (v as real / 255.0) * h == ((w - v) as real / 255.0) * h;
  }

  /** The bar drawn for bin `i` of magnitude `v`: every bar has the laid-out
      width and the fixed height, and the first starts one margin after
      `startpos` (PyreBarTravel states where its top lies). */
  function PyreBar(info: PyreInfo, i: nat, v: int): (r: Rect)
    ensures r.w == info.barWidth && r.h == info.barHeight
    ensures i == 0 ==> r.x == info.startpos + info.margin
  {
    Rect(info.startpos + info.margin + i as real * (info.barWidth + info.spacing),
         info.topSpacing + info.travelDistance * (256 - v) as real / 256.0,
         info.barWidth,
         info.barHeight)
  }

  /** With positive bar width and spacing, bars are placed left to right in bin
      order, at least one spacing apart, so no two overlap. */
  lemma PyreBarsOrdered(info: PyreInfo, i: nat, j: nat, v: int, w: int)
    requires info.barWidth > 0.0 && info.spacing > 0.0 && i < j
    ensures PyreBar(info, i, v).x + info.barWidth + info.spacing <= PyreBar(info, j, w).x
  {
    var step := info.barWidth + info.spacing;
    assert j as real * step - i as real * step == step + (j - i - 1) as real * step;
    assert (j - i - 1) as real * step >= 0.0;
  }

  /** After setup for `n` bins, the last bar's right edge is one margin and one
      spacing short of `endpos`. */
  lemma PyreLastBarEdge(info: PyreInfo, n: nat, v: int)
    requires n > 0
    ensures var laid := SetupPyre(info, n);
            PyreBar(laid, n - 1, v).x + laid.barWidth == laid.endpos - laid.margin - laid.spacing
  {
  }

  /** A bar's top edge sits `travelDistance * (256 - v) / 256` below
      `topSpacing`: a louder bin's bar starts strictly higher, and for any byte
      the top lies in (topSpacing, topSpacing + travelDistance]. */
  lemma PyreBarTravel(info: PyreInfo, i: nat, v: int, w: int)
    requires info.travelDistance > 0.0 && IsByte(v) && IsByte(w)
    ensures info.topSpacing < PyreBar(info, i, v).y <= info.topSpacing + info.travelDistance
    ensures v < w ==> PyreBar(info, i, w).y < PyreBar(info, i, v).y
  {
    assert PyreBar(info, i, v).y == info.topSpacing + info.travelDistance * (256 - v) as real / 256.0;
    assert PyreBar(info, i, w).y == info.topSpacing + info.travelDistance * (256 - w) as real / 256.0;
    Drop(info.travelDistance, v, w);
  }

  /** The drop `t * (256 - v) / 256` of a byte `v` lies in (0, t] and shrinks
      as `v` grows. */
  lemma Drop(t: real, v: int, w: int)
    requires t > 0.0 && IsByte(v) && IsByte(w)
    ensures 0.0 < t * (256 - v) as real / 256.0 <= t
    ensures v < w ==> t * (256 - w) as real / 256.0 < t * (256 - v) as real / 256.0
  {
    var a := (256 - v) as real;
    var b := (256 - w) as real;
    assert t * a > 0.0;
    assert t * 256.0 - t * a == t * (256.0 - a);
    assert t * a - t * b == t * (a - b);
  }

  /** What Pyre needs of its configuration: the waves' bins exist and their
      periods are positive. */
  predicate PyreReady(info: PyreInfo, bins: nat) {
    && info.wave1.bin < bins && info.wave2.bin < bins && info.wave3.bin < bins
    && info.wave1.period > 0.0 && info.wave2.period > 0.0 && info.wave3.period > 0.0
  }

  /** One Pyre wave across the bar span, on the baseline `sinusoidY`: it starts
      at `startpos`, its segments step by the wave's period with control points
      alternately `amplitude` below and above the baseline, and it ends within
      two periods past `endpos`. */
  function PyreWave(info: PyreInfo, wave: WaveInfo, amplitude: real): (p: Path)
    requires wave.period > 0.0
    ensures p.startX == info.startpos && p.startY == info.sinusoidY && p.stroke == wave.stroke
    ensures forall k :: 0 <= k < |p.segments| ==>
              IsWaveSegment(p.segments[k], k, info.startpos, info.sinusoidY, amplitude, wave.period)
    ensures |p.segments| == 0 <==> info.endpos <= info.startpos
    ensures |p.segments| > 0 ==>
              info.endpos <= p.segments[|p.segments| - 1].x < info.endpos + 2.0 * wave.period
  {
    DrawSinusoid(info.startpos, info.endpos, info.sinusoidY, amplitude, wave.period, wave.stroke)
  }

  /** The Pyre frame: background; one circle per bin at half opacity; the logo
      cutout (image 0); one bar per bin; three waves whose amplitudes are
      `sinusoidMaxDistance` times the percent of their bin, the second one
      mirrored; the top layer (image 1). `percent` is the helper that turns a
      bin magnitude into a fraction. Drawing throws when an image is missing. */
  function DrawPyre(info: PyreInfo, canvasHeight: nat, spectrum: seq<int>,
                    percent: int -> real, images: nat): (r: Result<PyreScene, DrawError>)
    requires IsBytes(spectrum) && PyreReady(info, |spectrum|)
    ensures r.Err? <==> images < 2
    ensures r.Err? ==> r.error == MissingImage(images)
    ensures r.Ok? ==> && |r.value.circles| == |spectrum|
                      && |r.value.bars| == |spectrum|
                      && |r.value.waves| == 3
                      && r.value.cutout == 0 && r.value.topLayer == 1
    ensures r.Ok? ==> forall i :: 0 <= i < |spectrum| ==>
                        && r.value.circles[i] == PyreCircle(canvasHeight, spectrum[i])
                        && r.value.bars[i] == PyreBar(info, i, spectrum[i])
    ensures r.Ok? ==>
              var scale := info.sinusoidMaxDistance;
              r.value.waves == [PyreWave(info, info.wave1, percent(spectrum[info.wave1.bin]) * scale),
                                PyreWave(info, info.wave2, -(percent(spectrum[info.wave2.bin]) * scale)),
                                PyreWave(info, info.wave3, percent(spectrum[info.wave3.bin]) * scale)]
    ensures r.Ok? ==> && r.value.background == info.backgroundColor && r.value.circleLayerAlpha == 0.5
                      && r.value.barFill == info.fillStyle && r.value.barStroke == info.strokeStyle
  {
    if images < 1 then Err(MissingImage(0))
    else if images < 2 then Err(MissingImage(1))
    else
      var circles := seq(|spectrum|, i requires 0 <= i < |spectrum| => PyreCircle(canvasHeight, spectrum[i]));
      var bars := seq(|spectrum|, i requires 0 <= i < |spectrum| => PyreBar(info, i, spectrum[i]));
      var amp1 := percent(spectrum[info.wave1.bin]) * info.sinusoidMaxDistance;
      var amp2 := percent(spectrum[info.wave2.bin]) * info.sinusoidMaxDistance;
      var amp3 := percent(spectrum[info.wave3.bin]) * info.sinusoidMaxDistance;
      var waves := [PyreWave(info, info.wave1, amp1), PyreWave(info, info.wave2, -amp2),
                    PyreWave(info, info.wave3, amp3)];
      Ok(PyreScene(info.backgroundColor, 0.5, circles, 0, info.fillStyle, info.strokeStyle,
                   bars, waves, 1))
  }

  // ---------------------------------------------------------------------------
  // RoR2
  // ---------------------------------------------------------------------------

  /** The ring segment drawn for bin `i` of magnitude `v`: its outer radius
      steps out by `barWidth + spacing` per bin from `innerRadius`, its inner
      radius is one `barWidth` less, and it sweeps from pi to
      `pi + v/256 * maxTheta + minTheta`. */
  function Ror2Wedge(info: Ror2Info, i: nat, v: int): (w: Wedge)
    ensures w.cx == info.centerX && w.cy == info.centerY && w.fromAngle == Pi
    ensures w.outerRadius - w.innerRadius == info.barWidth
    ensures i == 0 ==> w.outerRadius == info.innerRadius
  {
    var outer := info.innerRadius + i as real * (info.barWidth + info.spacing);
    var inner := outer - info.barWidth;
    var angle := v as real / 256.0 * info.maxTheta + info.minTheta;
    Wedge(info.centerX, info.centerY, inner, outer, Pi, angle + Pi)
  }

  /** The swept angle never decreases as the magnitude grows and lies in
      [minTheta, minTheta + maxTheta * 255/256]. */
  lemma Ror2Sweep(info: Ror2Info, i: nat, v: int, w: int)
    requires info.maxTheta >= 0.0 && IsByte(v) && IsByte(w)
    ensures var a := Ror2Wedge(info, i, v);
            info.minTheta <= a.toAngle - a.fromAngle <= info.minTheta + info.maxTheta * 255.0 / 256.0
    ensures v <= w ==> Ror2Wedge(info, i, v).toAngle <= Ror2Wedge(info, i, w).toAngle
  {
    assert Ror2Wedge(info, i, v).toAngle == v as real / 256.0 * info.maxTheta + info.minTheta + Pi;
    assert Ror2Wedge(info, i, w).toAngle == w as real / 256.0 * info.maxTheta + info.minTheta + Pi;
    var m := info.maxTheta;
    assert m * 255.0 / 256.0 - v as real / 256.0 * m == (255 - v) as real / 256.0 * m;
    assert w as real / 256.0 * m - v as real / 256.0 * m == (w - v) as real / 256.0 * m;
  }

  /** Each ring starts one spacing outside the previous one's outer radius. */
  lemma Ror2Adjacent(info: Ror2Info, i: nat, v: int, w: int)
    ensures Ror2Wedge(info, i + 1, w).innerRadius == Ror2Wedge(info, i, v).outerRadius + info.spacing
  {
  }

  /** After setup for `n` bins, the last ring's outer radius is one ring width
      and one spacing inside `outerRadius`; for the configured ring that is
      within `outerRadius`. */
  lemma Ror2LastOuter(n: nat, v: int)
    requires n > 0
    ensures var laid := SetupRor2(InitialRor2, n);
            && Ror2Wedge(laid, n - 1, v).outerRadius == laid.outerRadius - laid.barWidth - laid.spacing
            && Ror2Wedge(laid, n - 1, v).outerRadius <= laid.outerRadius
  {
  }

  /** For every bin count of at least 16, every ring of the RoR2 layout has
      positive inner and outer radius, so `arc` never throws for a negative
      radius; with 64 bins each ring is also proper (inner radius below outer). */
  lemma Ror2RadiiPositive(n: nat, i: nat, v: int)
    requires 16 <= n && i < n
    ensures var laid := SetupRor2(InitialRor2, n);
            && 0.0 < Ror2Wedge(laid, i, v).innerRadius
            && 0.0 < Ror2Wedge(laid, i, v).outerRadius
            && (n == 64 ==> Ror2Wedge(laid, i, v).innerRadius < Ror2Wedge(laid, i, v).outerRadius)
  {
    var laid := SetupRor2(InitialRor2, n);
    var step := laid.barWidth + laid.spacing;
    var bw := laid.barWidth;
    assert n as real * step == 450.0;
    assert step > 0.0;
    assert n as real * bw == 450.0 - 2.0 * n as real;
    assert bw < 150.0;
    assert i as real * step >= 0.0;
    if n == 64 {
      assert bw == 322.0 / 64.0;
    }
  }

  /** The same for every transform size the analyser accepts, laid out by
      `setupCanvas`. */
  lemma Ror2CanvasRadiiPositive(fftSize: nat, i: nat, v: int)
    requires IsFftSize(fftSize)
    requires i < BinCount(fftSize)
    ensures var laid := SetupCanvas(0, 0, fftSize).ror2;
            && 0.0 < Ror2Wedge(laid, i, v).innerRadius
            && 0.0 < Ror2Wedge(laid, i, v).outerRadius
  {
    Ror2RadiiPositive(BinCount(fftSize), i, v);
  }

  /** The RoR2 frame: background; the backdrop (image 3); one ring segment per
      bin; the foreground (image 2). Drawing throws when an image is missing,
      and the backdrop is drawn first. */
  function DrawRor2(info: Ror2Info, spectrum: seq<int>, images: nat): (r: Result<Ror2Scene, DrawError>)
    ensures r.Err? <==> images < 4
    ensures r.Err? ==> r.error == MissingImage(3)
    ensures r.Ok? ==> |r.value.wedges| == |spectrum| && r.value.backdrop == 3 && r.value.foreground == 2
    ensures r.Ok? ==> forall i :: 0 <= i < |spectrum| ==> r.value.wedges[i] == Ror2Wedge(info, i, spectrum[i])
    ensures r.Ok? ==> r.value.background == info.backgroundColor && r.value.fill == info.fillStyle
  {
    if images < 4 then Err(MissingImage(3))
    else
      var wedges := seq(|spectrum|, i requires 0 <= i < |spectrum| => Ror2Wedge(info, i, spectrum[i]));
      Ok(Ror2Scene(info.backgroundColor, 3, info.fillStyle, wedges, 2))
  }

  // ---------------------------------------------------------------------------
  // HK
  // ---------------------------------------------------------------------------

  /** The HK frame: the background colour only. */
  function DrawHk(info: HkInfo): (s: Scene)
    ensures s.Hk? && s.background == info.backgroundColor
  {
    Hk(info.backgroundColor)
  }
}
