/** One call of `draw`: the theme named by the parameters paints its scene,
    then the canvas pixels are read back, post-processed and written back.
    The frequency data the analyser fills in, the image list's length, the
    pixels the canvas holds once the scene is painted (rasterisation is not
    modelled) and the noise draws are all inputs. */
module Render {
  import opened Wrappers
  import opened Pixels
  import opened Layout
  import opened Themes
  import opened PostProcess

  /** The parameters `draw` reads: three effect toggles and the theme tag. */
  datatype DrawParams = DrawParams(showNoise: bool, showInvert: bool, showEmboss: bool,
                                   drawType: string)

  /** What a frame leaves behind: the scene painted (none for an unknown tag)
      and the pixels written back. */
  datatype Frame = Frame(scene: Option<Scene>, pixels: seq<int>)

  predicate IsTheme(drawType: string) {
    drawType == "pyre" || drawType == "ror2" || drawType == "hk"
  }

  /** How many leading entries of the image list a theme draws. */
  function ImagesUsed(drawType: string): nat {
    if drawType == "pyre" then 2 else if drawType == "ror2" then 4 else 0
  }

  /** What a theme needs of the frequency data and the layout. */
  predicate ThemeReady(canvas: Canvas, drawType: string, spectrum: seq<int>) {
    && IsBytes(spectrum)
    && |spectrum| == canvas.bins
    && (drawType == "pyre" ==> PyreReady(canvas.pyre, canvas.bins))
  }

  /** The three tag tests. A tag names at most one theme, so at most one of
      them paints; an unknown tag paints nothing and is not an error. The frame
      fails exactly when the chosen theme draws an image the list lacks. */
  function DrawTheme(canvas: Canvas, drawType: string, spectrum: seq<int>, percent: int -> real,
                     images: nat): (r: Result<Option<Scene>, DrawError>)
    requires ThemeReady(canvas, drawType, spectrum)
    ensures r.Err? <==> images < ImagesUsed(drawType)
    ensures r.Err? ==> r.error.MissingImage? && images <= r.error.index < ImagesUsed(drawType)
    ensures r.Ok? ==> (r.value.Some? <==> IsTheme(drawType))
    ensures r.Ok? && r.value.Some? ==>
              && (r.value.value.Pyre? <==> drawType == "pyre")
              && (r.value.value.Ror2? <==> drawType == "ror2")
              && (r.value.value.Hk? <==> drawType == "hk")
    ensures r.Ok? && drawType == "pyre" ==>
              r.value == Some(Pyre(DrawPyre(canvas.pyre, canvas.height, spectrum, percent, images).value))
    ensures r.Ok? && drawType == "ror2" ==>
              r.value == Some(Ror2(DrawRor2(canvas.ror2, spectrum, images).value))
    ensures drawType == "hk" ==> r == Ok(Some(DrawHk(canvas.hk)))
  {
    if drawType == "pyre" then
      match DrawPyre(canvas.pyre, canvas.height, spectrum, percent, images)
      case Ok(s) => Ok(Some(Pyre(s)))
      case Err(e) => Err(e)
    else if drawType == "ror2" then
      match DrawRor2(canvas.ror2, spectrum, images)
      case Ok(s) => Ok(Some(Ror2(s)))
      case Err(e) => Err(e)
    else if drawType == "hk" then
      Ok(Some(DrawHk(canvas.hk)))
    else
      Ok(None)
  }

  /** A layout from `setupCanvas` for a transform of at least 72 samples has
      the bins Pyre's waves read. */
  lemma CanvasPyreReady(canvasWidth: nat, canvasHeight: nat, fftSize: nat)
    requires IsFftSize(fftSize) && 72 <= fftSize
    ensures PyreReady(SetupCanvas(canvasWidth, canvasHeight, fftSize).pyre,
                      SetupCanvas(canvasWidth, canvasHeight, fftSize).bins)
  {
  }

  /** `draw`: the theme, then the post-process of the pixels the canvas holds
      (`rendered`), with `coins[k]` the noise draw of pixel `k`. A theme that
      throws ends the frame before the pixels are touched; reading back a
      canvas with no area throws too. */
  method Draw(canvas: Canvas, params: DrawParams, spectrum: seq<int>, percent: int -> real,
              images: nat, rendered: seq<int>, coins: seq<bool>)
    returns (r: Result<Frame, DrawError>)
    requires ThemeReady(canvas, params.drawType, spectrum)
    requires |rendered| == 4 * (canvas.width * canvas.height) && IsBytes(rendered)
    requires |coins| == canvas.width * canvas.height
    ensures r.Err? <==> images < ImagesUsed(params.drawType) || canvas.width == 0 || canvas.height == 0
    ensures r.Err? && images >= ImagesUsed(params.drawType) ==> r.error == EmptyCanvas
    ensures r.Ok? ==>
              && r.value.scene == DrawTheme(canvas, params.drawType, spectrum, percent, images).value
              && r.value.pixels == Processed(rendered, canvas.width, params.showNoise,
                                             params.showInvert, params.showEmboss, coins)
              && IsImage(r.value.pixels, canvas.width, canvas.height)
  {
    var painted := DrawTheme(canvas, params.drawType, spectrum, percent, images);
    if painted.Err? {
      return Err(painted.error);
    }
    if canvas.width == 0 || canvas.height == 0 {
      return Err(EmptyCanvas);
    }
    var pixels := ProcessFrame(rendered, canvas.width, canvas.height, params.showNoise,
                               params.showInvert, params.showEmboss, coins);
    r := Ok(Frame(painted.value, pixels));
  }
}
