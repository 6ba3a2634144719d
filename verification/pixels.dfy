/** The per-pixel effects of the visualizer's frame post-process, on the RGBA
    bytes of a canvas ImageData (a Uint8ClampedArray): noise, invert and emboss,
    each stated as a pure function of the buffer it starts from. */
module Pixels {

  /** A value a Uint8ClampedArray element can hold. */
  predicate IsByte(v: int) {
    0 <= v <= 255
  }

  predicate IsBytes(s: seq<int>) {
    forall i :: 0 <= i < |s| ==> IsByte(s[i])
  }

  /** `s` is the data of an ImageData of `width` x `height` pixels: four bytes
      (red, green, blue, alpha) per pixel, row after row. A canvas of zero
      width or height has no ImageData (getImageData throws). */
  predicate IsImage(s: seq<int>, width: nat, height: nat) {
    && width > 0
    && height > 0
    && |s| == 4 * (width * height)
    && IsBytes(s)
  }

  /** Byte offset of channel `c` of the pixel in row `row`, column `col`. */
  function Index(width: nat, row: nat, col: nat, c: nat): nat {
    4 * (row * width + col) + c
  }

  lemma IndexInImage(s: seq<int>, width: nat, height: nat, row: nat, col: nat, c: nat)
    requires IsImage(s, width, height)
    requires row < height && col < width && c < 4
    ensures Index(width, row, col, c) < |s|
  {
    MulLeq(row + 1, height, width);
    assert (row + 1) * width == row * width + width;
  }

  lemma MulLeq(a: nat, b: nat, w: nat)
    requires a <= b
    ensures a * w <= b * w
  {
  }

  // ---------------------------------------------------------------------------
  // JavaScript numbers as the emboss arithmetic meets them
  // ---------------------------------------------------------------------------

  /** The numbers the emboss sum can produce: an integer, or NaN once an
      out-of-range element read (`undefined`) has entered the sum. */
  datatype Num = Int(v: int) | NaN

  /** Reading element `j` of a typed array: `undefined`, which turns into NaN
      in arithmetic, when `j` is past either end. */
  function Read(d: seq<int>, j: int): Num {
    if 0 <= j < |d| then Int(d[j]) else NaN
  }

  /** Subtraction; NaN is contagious. */
  function Minus(a: Num, b: Num): Num {
    if a.Int? && b.Int? then Int(a.v - b.v) else NaN
  }

  function Dist(a: int, b: int): nat {
    if a < b then b - a else a - b
  }

  /** Assigning a number to a Uint8ClampedArray element: NaN is stored as 0, a
      byte as itself, anything else as the nearest byte (see StoreIsNearest). */
  function Store(n: Num): (b: int)
    ensures IsByte(b)
    ensures n.NaN? ==> b == 0
    ensures n.Int? && IsByte(n.v) ==> b == n.v
  {
    match n
    case NaN => 0
    case Int(v) => if v < 0 then 0 else if v > 255 then 255 else v
  }

  /** The stored byte is the byte nearest to the number assigned. */
  lemma StoreIsNearest(v: int, x: int)
    requires IsByte(x)
    ensures Dist(v, Store(Int(v))) <= Dist(v, x)
  {
  }

  // ---------------------------------------------------------------------------
  // Pixels, noise and invert
  // ---------------------------------------------------------------------------

  datatype Rgba = Rgba(r: int, g: int, b: int, a: int)

  predicate IsPixel(p: Rgba) {
    IsByte(p.r) && IsByte(p.g) && IsByte(p.b) && IsByte(p.a)
  }

  /** Channel `c` of a pixel: 0 red, 1 green, 2 blue, 3 alpha. */
  function Channel(p: Rgba, c: nat): int
    requires c < 4
  {
    if c == 0 then p.r else if c == 1 then p.g else if c == 2 then p.b else p.a
  }

  /** The `k`-th pixel of a buffer. */
  function PixelAt(s: seq<int>, k: nat): Rgba
    requires 4 * k + 3 < |s|
  {
    Rgba(s[4 * k], s[4 * k + 1], s[4 * k + 2], s[4 * k + 3])
  }

  /** The noise effect on a pixel the random draw picked: red, green and blue
      are zeroed and red is then set to 255; alpha stays. */
  function Noise(p: Rgba): (q: Rgba)
    ensures IsByte(p.a) ==> IsPixel(q)
    ensures q.a == p.a
    ensures Channel(q, 0) == 255 && Channel(q, 1) == 0 && Channel(q, 2) == 0
  {
    Rgba(255, 0, 0, p.a)
  }

  /** The invert effect: each colour channel is stored as `255 - v`. The
      clamping store never has to act, and alpha is not touched. */
  function Invert(p: Rgba): (q: Rgba)
    requires IsPixel(p)
    ensures IsPixel(q)
    ensures q.r + p.r == 255 && q.g + p.g == 255 && q.b + p.b == 255
    ensures q.a == p.a
  {
    Rgba(Store(Int(255 - p.r)), Store(Int(255 - p.g)), Store(Int(255 - p.b)), p.a)
  }

  /** Inverting twice gives the pixel back. */
  lemma InvertInvolution(p: Rgba)
    requires IsPixel(p)
    ensures Invert(Invert(p)) == p
  {
  }

  /** One iteration of the first post-process loop: noise when it is enabled and
      this pixel's random draw hit, then invert when it is enabled. */
  function Shade(p: Rgba, noise: bool, hit: bool, invert: bool): (q: Rgba)
    requires IsPixel(p)
    ensures IsPixel(q)
    ensures q.a == p.a
    ensures !(noise && hit) && !invert ==> q == p
  {
    var n := if noise && hit then Noise(p) else p;
    if invert then Invert(n) else n
  }

  lemma PixelOfByte(i: nat, n: nat)
    requires n % 4 == 0 && i < n
    ensures 4 * (i / 4) + 3 < n && i == 4 * (i / 4) + i % 4
  {
  }

  predicate IsPassInput(s: seq<int>, coins: seq<bool>) {
    |s| % 4 == 0 && IsBytes(s) && |coins| == |s| / 4
  }

  /** Byte `i` after the first loop. `coins[k]` is whether the random draw for
      pixel `k` fell under the noise probability. The loop stores only bytes,
      never changes an alpha byte, and with both effects off changes nothing. */
  function PassByte(s: seq<int>, noise: bool, invert: bool, coins: seq<bool>, i: nat): (b: int)
    requires IsPassInput(s, coins) && i < |s|
    ensures IsByte(b)
    ensures i % 4 == 3 ==> b == s[i]
    ensures !noise && !invert ==> b == s[i]
  {
    PixelOfByte(i, |s|);
    Channel(Shade(PixelAt(s, i / 4), noise, coins[i / 4], invert), i % 4)
  }

  /** The buffer after the first loop. */
  function PixelPass(s: seq<int>, noise: bool, invert: bool, coins: seq<bool>): (r: seq<int>)
    requires IsPassInput(s, coins)
    ensures |r| == |s|
  {
    seq(|s|, i requires 0 <= i < |s| => PassByte(s, noise, invert, coins, i))
  }

  /** The first loop stores only bytes, never changes an alpha byte, and with
      noise and invert both off changes nothing. */
  lemma PixelPassFacts(s: seq<int>, noise: bool, invert: bool, coins: seq<bool>)
    requires IsPassInput(s, coins)
    ensures IsBytes(PixelPass(s, noise, invert, coins))
    ensures forall i :: 0 <= i < |s| && i % 4 == 3 ==> PixelPass(s, noise, invert, coins)[i] == s[i]
    ensures !noise && !invert ==> PixelPass(s, noise, invert, coins) == s
  {
  }

  lemma ChannelOfByte(s: seq<int>, i: nat)
    requires |s| % 4 == 0 && i < |s|
    ensures 4 * (i / 4) + 3 < |s| && i % 4 < 4
    ensures s[i] == Channel(PixelAt(s, i / 4), i % 4)
  {
  }

  lemma ByteOfPixel(k: nat, c: nat)
    requires c < 4
    ensures (4 * k + c) / 4 == k && (4 * k + c) % 4 == c
  {
  }

  /** The first loop works pixel by pixel: pixel `k` of its result is pixel `k`
      of its input, shaded with pixel `k`'s random draw. */
  lemma PixelPassByPixel(s: seq<int>, noise: bool, invert: bool, coins: seq<bool>, k: nat)
    requires IsPassInput(s, coins) && 4 * k + 3 < |s|
    ensures k < |coins|
    ensures PixelAt(PixelPass(s, noise, invert, coins), k) == Shade(PixelAt(s, k), noise, coins[k], invert)
  {
    ByteOfPixel(k, 0);
    ByteOfPixel(k, 1);
    ByteOfPixel(k, 2);
    ByteOfPixel(k, 3);
  }

  /** The first `k` pixels of `d` are those of `s`, shaded. */
  ghost predicate ShadedPrefix(d: seq<int>, s: seq<int>, noise: bool, invert: bool, coins: seq<bool>, k: nat)
    requires IsPassInput(s, coins) && |d| == |s| && 4 * k <= |s|
  {
    forall m :: 0 <= m < k ==> PixelAt(d, m) == Shade(PixelAt(s, m), noise, coins[m], invert)
  }

  /** Shading one more pixel, with the earlier ones left alone, extends the prefix. */
  lemma ShadedPrefixStep(before: seq<int>, after: seq<int>, s: seq<int>, noise: bool, invert: bool,
                         coins: seq<bool>, k: nat)
    requires IsPassInput(s, coins) && |before| == |s| && |after| == |s| && 4 * k + 3 < |s|
    requires ShadedPrefix(before, s, noise, invert, coins, k)
    requires forall j :: 0 <= j < 4 * k ==> after[j] == before[j]
    requires k < |coins| && PixelAt(after, k) == Shade(PixelAt(s, k), noise, coins[k], invert)
    ensures ShadedPrefix(after, s, noise, invert, coins, k + 1)
  {
  }

  /** A buffer whose every pixel is the shaded input pixel is the first loop's result. */
  lemma ShadedIsPixelPass(d: seq<int>, s: seq<int>, noise: bool, invert: bool, coins: seq<bool>)
    requires IsPassInput(s, coins) && |d| == |s|
    requires ShadedPrefix(d, s, noise, invert, coins, |s| / 4)
    ensures d == PixelPass(s, noise, invert, coins)
  {
  }

  /** Two invert-only passes give the buffer back. */
  lemma PixelPassInvertTwice(s: seq<int>, coins: seq<bool>)
    requires IsPassInput(s, coins)
    ensures PixelPass(PixelPass(s, false, true, coins), false, true, coins) == s
  {
    var once := PixelPass(s, false, true, coins);
    var twice := PixelPass(once, false, true, coins);
    forall i | 0 <= i < |s|
      ensures twice[i] == s[i]
    {
      var k := i / 4;
      ChannelOfByte(s, i);
      ChannelOfByte(twice, i);
      PixelPassByPixel(s, false, true, coins, k);
      PixelPassByPixel(once, false, true, coins, k);
      InvertInvolution(PixelAt(s, k));
    }
  }

  // ---------------------------------------------------------------------------
  // Emboss
  // ---------------------------------------------------------------------------

  /** The emboss sum for byte `i`: `127 + 2*d[i] - d[i+4] - d[i+4*width]`, where
      `i+4` is the same channel of the next pixel in memory and `i+4*width` the
      same channel one row down. */
  function EmbossValue(d: seq<int>, width: nat, i: nat): Num
    requires i < |d|
  {
    Minus(Minus(Int(127 + 2 * d[i]), Read(d, i + 4)), Read(d, i + 4 * width))
  }

  /** The embossed byte `i`, computed from the snapshot `s`: alpha bytes are
      skipped, the others receive the stored emboss sum. */
  function EmbossByte(s: seq<int>, width: nat, i: nat): int
    requires i < |s|
  {
    if i % 4 == 3 then s[i] else Store(EmbossValue(s, width, i))
  }

  /** Emboss as a function of the buffer it starts from. It keeps every alpha
      byte, stores only bytes, and turns the colour channels of the last row
      (whose lower neighbour is past the end) into 0. */
  function Emboss(s: seq<int>, width: nat): (r: seq<int>)
    requires IsBytes(s)
    ensures |r| == |s| && IsBytes(r)
    ensures forall i :: 0 <= i < |s| && i % 4 == 3 ==> r[i] == s[i]
    ensures forall i :: 0 <= i < |s| && i % 4 != 3 && |s| <= i + 4 * width ==> r[i] == 0
  {
    seq(|s|, i requires 0 <= i < |s| => EmbossByte(s, width, i))
  }

  /** Away from the last row, emboss subtracts the next pixel in memory and the
      pixel below. The next pixel in memory is the right neighbour, except in
      the rightmost column, where it is the first pixel of the following row:
      there is no guard against wrapping. */
  lemma EmbossNeighbours(s: seq<int>, width: nat, height: nat, row: nat, col: nat, c: nat)
    requires IsImage(s, width, height)
    requires row + 1 < height && col < width && c < 3
    ensures var next := if col + 1 < width then Index(width, row, col + 1, c)
                        else Index(width, row + 1, 0, c);
            var here := Index(width, row, col, c);
            var below := Index(width, row + 1, col, c);
            && here < |s| && next < |s| && below < |s|
            && Emboss(s, width)[here] == Store(Int(127 + 2 * s[here] - s[next] - s[below]))
  {
    IndexInImage(s, width, height, row + 1, col, c);
    IndexInImage(s, width, height, row, col, c);
    NeighbourOffsets(width, row, col, c);
  }

  /** The pixel below is `4 * width` bytes on, the next pixel in memory 4 bytes on. */
  lemma NeighbourOffsets(width: nat, row: nat, col: nat, c: nat)
    requires col < width && c < 4
    ensures Index(width, row + 1, col, c) == Index(width, row, col, c) + 4 * width
    ensures (if col + 1 < width then Index(width, row, col + 1, c) else Index(width, row + 1, 0, c))
            == Index(width, row, col, c) + 4
    ensures Index(width, row, col, c) % 4 == c
  {
  }

  /** In the last row emboss stores 0 in every colour channel: the lower
      neighbour is read past the end, the sum is NaN, and NaN is stored as 0. */
  lemma EmbossLastRow(s: seq<int>, width: nat, height: nat, col: nat, c: nat)
    requires IsImage(s, width, height)
    requires col < width && c < 3
    ensures Index(width, height - 1, col, c) < |s|
    ensures Emboss(s, width)[Index(width, height - 1, col, c)] == 0
  {
  }

  /** A channel whose value equals that of both its neighbours embosses to 127:
      the neighbours cancel the doubled centre. */
  lemma EmbossFlat(s: seq<int>, width: nat, i: nat)
    requires IsBytes(s) && width > 0
    requires i % 4 != 3 && i + 4 * width < |s|
    requires s[i + 4] == s[i] && s[i + 4 * width] == s[i]
    ensures Emboss(s, width)[i] == 127
  {
  }

  /** The emboss loop as written, one index at a time: byte `i` is recomputed
      from the buffer as it currently stands, in which every earlier byte has
      already been replaced. */
  function EmbossFrom(d: seq<int>, width: nat, i: nat): (r: seq<int>)
    requires i <= |d|
    ensures |r| == |d|
    decreases |d| - i
  {
    if i == |d| then d
    else if i % 4 == 3 then EmbossFrom(d, width, i + 1)
    else EmbossFrom(d[i := Store(EmbossValue(d, width, i))], width, i + 1)
  }

  /** One step of the in-place loop on a colour byte. */
  lemma EmbossFromStep(d: seq<int>, width: nat, i: nat)
    requires i < |d| && i % 4 != 3
    ensures EmbossFrom(d, width, i) == EmbossFrom(d[i := Store(EmbossValue(d, width, i))], width, i + 1)
  {
  }

  /** Past the last index the in-place loop leaves the buffer as it is. */
  lemma EmbossFromDone(d: seq<int>, width: nat)
    ensures EmbossFrom(d, width, |d|) == d
  {
  }

  /** Each step of the in-place loop reads only indices at or after its own, so
      once the bytes before `i` hold their embossed values and the rest are
      untouched, finishing the loop yields the snapshot emboss. */
  lemma {:induction false} EmbossFromAgrees(s: seq<int>, d: seq<int>, width: nat, i: nat)
    requires IsBytes(s) && |d| == |s| && i <= |s|
    requires forall j :: 0 <= j < i ==> d[j] == EmbossByte(s, width, j)
    requires forall j :: i <= j < |s| ==> d[j] == s[j]
    ensures EmbossFrom(d, width, i) == Emboss(s, width)
    decreases |s| - i
  {
    if i == |s| {
      assert d == Emboss(s, width);
    } else if i % 4 == 3 {
      EmbossFromAgrees(s, d, width, i + 1);
    } else {
      assert Read(d, i + 4) == Read(s, i + 4);
      assert Read(d, i + 4 * width) == Read(s, i + 4 * width);
      EmbossFromAgrees(s, d[i := Store(EmbossValue(d, width, i))], width, i + 1);
    }
  }

  /** The in-place emboss loop equals emboss applied to the buffer as it stood
      before the loop. */
  lemma EmbossInPlaceIsSnapshot(s: seq<int>, width: nat)
    requires IsBytes(s)
    ensures EmbossFrom(s, width, 0) == Emboss(s, width)
  {
    EmbossFromAgrees(s, s, width, 0);
  }
}
