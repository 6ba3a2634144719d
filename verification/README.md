# Audio visualiser core, modelled in Dafny

This project models the per-frame logic of a browser audio visualiser. Each
frame of `draw` does three things:

1. It reads the analyser's 64-bin byte spectrum.
2. It paints one of three themes chosen by `params.drawType`:
   - **Pyre**: translucent circles, a bar per bin and three sinusoid waves,
     between two image layers.
   - **RoR2**: one ring segment ("wedge") per bin, between two image layers.
   - **HK**: a plain background.
3. It post-processes the canvas pixels in place: random red noise, colour
   inversion and an emboss filter, each switched by a parameter.

`setupCanvas` lays out the Pyre bars and the RoR2 rings for the number of bins
the analyser produces. The two small sprite classes are modelled as well.

Canvas calls become returned records:
- rectangles, circles, wedges and quadratic-curve paths;
- images, referred to by their index in the preloaded image list.

The pixel buffer is a sequence of bytes that runs through the same loops as
the source, on a local array. Modules:

- `Pixels`: clamped byte stores, the NaN of an out-of-range read, the noise and
  invert pass, the emboss filter and its in-place loop.
- `PostProcess`: the two loops as methods, and the whole post-process.
- `Layout`: the theme records, their initial values and `setupCanvas`.
- `Sinusoid`: the wave generator of `drawSinusoid`.
- `Themes`: Pyre circles and bars, RoR2 wedges, and the three theme drawings
  with their failure when an image is missing.
- `Render`: the theme dispatch and `draw`.
- `Sprites`: `Sprite` and `ImageSprite`.
- `Wrappers`: `Option` and `Result`.

## Model

| member | source | states |
|---|---|---|
| Pixels.Store | src/canvas.js:132-133 | a store into the clamped pixel array always holds a byte; a NaN is stored as 0 and a byte as itself |
| Pixels.StoreIsNearest | src/canvas.js:166 | the stored byte is the byte nearest to the integer assigned (clamping) |
| Pixels.Invert | src/canvas.js:150-155 | inverting gives a pixel whose colour channels add up to 255 with the input's, needs no clamping, and keeps alpha |
| Pixels.InvertInvolution | src/canvas.js:150-155 | inverting twice restores the pixel |
| Pixels.Noise | src/canvas.js:145-146 | a pixel hit by noise becomes pure red: red 255, green and blue 0, alpha kept |
| Pixels.Shade | src/canvas.js:140-155 | one iteration of the first loop yields a valid pixel with its alpha kept, and changes nothing when the draw missed (or noise is off) and invert is off |
| Pixels.PassByte | src/canvas.js:138-156 | each byte the first loop leaves is a byte; an alpha byte is kept; with noise and invert off the byte is unchanged |
| Pixels.PixelPass | src/canvas.js:138-156 | the first loop keeps the buffer's length (its bytes are stated by PassByte and PixelPassByPixel) |
| Pixels.PixelPassFacts | src/canvas.js:138-156 | the first loop leaves only bytes, keeps every alpha byte, and is the identity with noise and invert off |
| Pixels.PixelPassByPixel | src/canvas.js:138-156 | the first loop works pixel by pixel: pixel k of the result is the shade of pixel k with draw k |
| Pixels.ShadedIsPixelPass | src/canvas.js:138-156 | a buffer whose every pixel is the shaded input pixel equals the first loop's result |
| Pixels.PixelPassInvertTwice | src/canvas.js:150-155 | two invert-only passes give back the original buffer |
| Pixels.Emboss | src/canvas.js:161-168 | emboss keeps every alpha byte, stores only bytes, and zeroes the colour channels whose lower neighbour is past the end |
| Pixels.EmbossNeighbours | src/canvas.js:163-166 | above the last row a colour byte becomes clamp(127 + 2·here − next − below); "next" is the right neighbour, or in the rightmost column the first pixel of the next row |
| Pixels.EmbossLastRow | src/canvas.js:166 | in the last row every colour channel becomes 0, because the lower read is undefined and NaN is stored as 0 |
| Pixels.EmbossFlat | src/canvas.js:166 | a channel equal to both its neighbours embosses to 127 |
| Pixels.EmbossFrom | src/canvas.js:163-167 | the emboss loop as written, one index at a time on the buffer as it stands, keeps the buffer's length |
| Pixels.EmbossFromStep | src/canvas.js:163-167 | a colour byte's step replaces that byte with the store of its emboss value, read from the current buffer, and moves to the next index |
| Pixels.EmbossFromDone | src/canvas.js:163-167 | the loop leaves the buffer as it is once the index reaches the length |
| Pixels.EmbossFromAgrees | src/canvas.js:163-167 | when earlier bytes are already embossed and later bytes untouched, finishing the loop gives the snapshot emboss, since each step reads only indices at or after its own |
| Pixels.EmbossInPlaceIsSnapshot | src/canvas.js:163-167 | the in-place emboss loop equals emboss of the buffer as it stood before the loop |
| PostProcess.Processed | src/canvas.js:132-171 | the post-processed buffer has the input's length, holds bytes, and keeps every alpha byte |
| PostProcess.AllOffIsIdentity | src/canvas.js:132-171 | with noise, invert and emboss all off, the pixels written back are the pixels read |
| PostProcess.ShadeInPlace | src/canvas.js:140-155 | the loop body overwrites the four bytes of one pixel with its shade and changes no other byte |
| PostProcess.PixelLoop | src/canvas.js:138-156 | the in-place pixel loop computes the pure first-loop function |
| PostProcess.EmbossLoop | src/canvas.js:161-168 | the in-place emboss loop, reading from the buffer it is rewriting, follows EmbossFrom and so computes emboss of its starting buffer |
| PostProcess.EmbossInPlace | src/canvas.js:165-166 | one step of the emboss loop writes the store of its emboss value to byte i, reading the right and lower neighbours from the buffer as it stands |
| PostProcess.ProcessFrame | src/canvas.js:132-171 | the whole post-process computes the pixel pass followed by emboss when enabled, and yields an image of the same size |
| Layout.BinCount | src/canvas.js:89 | the frequency buffer holds half the transform size, from 16 to 16384 bins |
| Layout.DefaultBinCount | src/audio.js:11 | the configured transform size 128 is accepted and gives 64 bins |
| Layout.SetupPyre | src/canvas.js:91-92 | n bars plus their spacings exactly fill the span between the two margins, and n bar widths make `width`; no other field changes |
| Layout.SetupRor2 | src/canvas.js:94-95 | n rings plus their spacings exactly fill the band between the inner and outer radius; no other field changes |
| Layout.SetupCanvas | src/canvas.js:79-96 | the canvas size is kept, the bin count is half the transform size, Pyre and RoR2 are laid out for it, and HK is untouched |
| Layout.PyreBarWidthPositive | src/canvas.js:91-92 | Pyre's bar width is positive iff 4n + 10 < 551, and is 285/64 for 64 bins |
| Layout.Ror2DefaultBarWidth | src/canvas.js:94-95 | RoR2's ring width is 322/64 for 64 bins |
| Sinusoid.RemainingStep | src/canvas.js:296-302 | each iteration decreases the number of remaining iterations by one, so the loop terminates |
| Sinusoid.Segments | src/canvas.js:296-302 | the loop runs ⌈remaining distance / (2·frequency)⌉ iterations and emits two segments per iteration |
| Sinusoid.SegmentsStep | src/canvas.js:296-302 | one iteration emits a segment ending one step along with its control point at y+amplitude, then one ending two steps along with its control point at y−amplitude, and the loop continues two steps further on |
| Sinusoid.SegmentsShape | src/canvas.js:296-302 | segment k ends on the baseline k+1 steps along, with its control point half a step before and at alternately y+amplitude and y−amplitude |
| Sinusoid.SegmentsEnd | src/canvas.js:296-302 | the loop emits nothing iff it starts at or past endX; otherwise the last end point lies in [endX, endX + 2·frequency) |
| Sinusoid.ShiftSegment | src/canvas.js:297-301 | a segment of the next iteration, counted from two steps earlier, is the segment two places further |
| Sinusoid.DrawSinusoid | src/canvas.js:288-309 | the wave starts at (startX, y); it has 2·⌈(endX − startX)/(2·frequency)⌉ segments, ending on the baseline at steps of `frequency` with alternating control points; it is empty iff endX ≤ startX, and otherwise ends in [endX, endX + 2·frequency) |
| Themes.PyreCircle | src/canvas.js:181-191 | each circle is centred at (125, 500) with radius from 0 to half the canvas height, and its fill alpha is positive iff the bin is at most 191 |
| Themes.PyreCircleGrows | src/canvas.js:186-191 | a louder bin draws a strictly larger circle |
| Themes.PyreBar | src/canvas.js:210 | every bar has the laid-out width and the fixed height, and bar 0 starts one margin after startpos |
| Themes.PyreBarsOrdered | src/canvas.js:210 | bars are placed left to right in bin order, at least one spacing apart, so none overlap |
| Themes.PyreLastBarEdge | src/canvas.js:210 | the last bar's right edge is endpos − margin − spacing |
| Themes.PyreBarTravel | src/canvas.js:210 | a bar's top is strictly higher for a louder bin and lies in (topSpacing, topSpacing + travelDistance] |
| Themes.Drop | src/canvas.js:210 | a bar's drop travelDistance·(256 − v)/256 lies in (0, travelDistance] and strictly shrinks as the magnitude grows |
| Themes.PyreWave | src/canvas.js:220-230 | a Pyre wave starts at (startpos, sinusoidY) in its stroke, steps by its period with alternating control points at ±amplitude, is empty iff endpos ≤ startpos, and otherwise ends within two periods past endpos |
| Themes.DrawPyre | src/canvas.js:174-237 | Pyre fails when the image list holds fewer than two images, naming the first one missing; otherwise circle i and bar i are those of bin i's magnitude, the three waves take their bins' percent times sinusoidMaxDistance as amplitude with the second negated, the circle layer is at alpha 0.5, image 0 is under the bars and image 1 on top |
| Themes.Ror2Wedge | src/canvas.js:267-274 | each wedge is centred on the RoR2 centre, starts at angle pi, is one barWidth thick, and ring 0's outer radius is innerRadius |
| Themes.Ror2Sweep | src/canvas.js:267-274 | a wedge's sweep never decreases with the magnitude and lies in [minTheta, minTheta + maxTheta·255/256] |
| Themes.Ror2Adjacent | src/canvas.js:269-270 | each ring's inner radius is the previous ring's outer radius plus the spacing |
| Themes.Ror2LastOuter | src/canvas.js:269-270 | the last ring's outer radius is outerRadius − barWidth − spacing, within outerRadius |
| Themes.Ror2RadiiPositive | src/canvas.js:269-274 | with at least 16 bins every ring's radii are positive, and with 64 bins each ring's inner radius is below its outer one |
| Themes.Ror2CanvasRadiiPositive | src/canvas.js:89-95 | for every accepted transform size the laid-out rings have positive radii |
| Themes.DrawRor2 | src/canvas.js:256-281 | RoR2 fails, on image 3, when the image list holds fewer than four images; otherwise wedge i is the wedge of bin i's magnitude, in the fill style, between image 3 and image 2 |
| Themes.DrawHk | src/canvas.js:283-286 | HK paints only its background colour |
| Render.DrawTheme | src/canvas.js:105-118 | at most one theme paints; the scene's kind matches the tag, an unknown tag paints nothing without error, the frame fails when the image list is shorter than the theme needs, and the scene is the Pyre, RoR2 or HK drawing itself |
| Render.CanvasPyreReady | src/canvas.js:220-229 | a layout for a transform of at least 72 samples has the bins the Pyre waves read |
| Render.Draw | src/canvas.js:99-172 | a frame fails iff the image list is shorter than the theme needs or the canvas has no area; otherwise its scene is the dispatched theme's and its pixels the post-process of the painted canvas |
| Sprites.NewSprite | src/classes.js:2-8 | every argument given is stored and a plain sprite has no image |
| Sprites.DefaultSprite | src/classes.js:2-8 | the defaults are a black 10-wide square at the origin heading along +x at speed 0 |
| Sprites.NewImageSprite | src/classes.js:34-36 | an image sprite is the plain sprite built from the same arguments without a colour, plus the image, so its colour is black |
| Sprites.Move | src/classes.js:27-30 | a move displaces the position by fwd·speed and changes nothing else |
| Sprites.MoveStill | src/classes.js:27-30 | at speed 0 a move changes nothing |
| Sprites.MoveTimesTravel | src/classes.js:27-30 | n moves displace the position by n·speed·fwd |
| Sprites.DrawSprite | src/classes.js:16-52 | the drawn square has side span and is centred on the sprite; a plain sprite fills it with its colour and an image sprite draws its image |
| Sprites.MoveShiftsDrawing | src/classes.js:16-30 | moving shifts the drawn square by the step and changes nothing else |

## Left out

- Canvas I/O is not modelled. This covers the 2D context calls (`arc`,
  `rect`, `fill`, `stroke`, `drawImage`, `save`/`restore`, `cls`) and their
  rasterisation. Scenes are returned as records, and the pixels the canvas holds
  after painting are an input of `Render.Draw`.
- The helpers `getFrequencyPercent`, `makeColor` and `getLinearGradient` are
  not part of this model. `getFrequencyPercent` is a function parameter
  (`percent`). Colours built by `makeColor` appear as their alpha. The gradient
  is unused by the themes, and HK's `gradient` field is dropped.
- The audio graph, the UI wiring, the animation loop and image preloading are
  not part of this model. The spectrum and the length of the image list are
  inputs.
- `Math.random` is replaced by a per-pixel input sequence `coins`: the outcome
  of each pixel's draw.
- Layout and geometry use `real`; double rounding is not modelled.
  `Math.PI` is written as its shortest decimal.
- Sinusoid.DrawSinusoid: requires `frequency > 0`, because for any other value
  the source loop never ends once `startX < endX`. The stroke width is omitted:
  the source sets `ctx.strokeWidth`, which is not a canvas property and has no
  effect.
- Themes.DrawPyre: requires that the three wave bins exist in the spectrum.
  Otherwise the source reads `undefined` and passes it to the helper that is not
  part of this model. Render.CanvasPyreReady shows that the configured
  layout meets this.
- Themes.DrawPyre, Themes.DrawRor2, Render.Draw: `images` counts the leading
  usable images of the list. Whether an image has loaded is not modelled: a
  broken image makes `drawImage` throw as a missing one does, and one still
  loading draws nothing.
- Themes.DrawPyre, Themes.DrawRor2: a theme that throws has already painted its
  earlier layers. The model reports only the error, not that partial drawing.
- The canvas state stack (`save`/`restore`, `globalAlpha`) is not modelled.
  Pyre's circle layer is recorded with its alpha of 0.5.
- Render.Draw: a canvas with no area is reported as an error (`getImageData`
  throws for it). The emboss loop reads the row width from the image data,
  which equals the canvas width.
- Sprites: the `fwd` object is a value; sprites sharing one heading object are
  not modelled.
