/** The bitmap manipulation at the end of each frame: the canvas pixels are
    copied out (getImageData), rewritten in place by two loops, and copied back
    (putImageData). The copy is a sequence; the loops run on a local array, as
    the JavaScript runs on its own Uint8ClampedArray copy. */
module PostProcess {
  import opened Pixels

  /** What the frame's pixels become: the pixel loop (noise, then invert), then,
      when enabled, emboss of the buffer that loop left behind. */
  function Processed(frame: seq<int>, width: nat, noise: bool, invert: bool, emboss: bool,
                     coins: seq<bool>): (r: seq<int>)
    requires IsPassInput(frame, coins)
    ensures |r| == |frame| && IsBytes(r)
    ensures forall i :: 0 <= i < |frame| && i % 4 == 3 ==> r[i] == frame[i]
  {
    PixelPassFacts(frame, noise, invert, coins);
    var shaded := PixelPass(frame, noise, invert, coins);
    if emboss then Emboss(shaded, width) else shaded
  }

  /** With noise, invert and emboss all off, the pixels written back are the
      pixels read. */
  lemma AllOffIsIdentity(frame: seq<int>, width: nat, coins: seq<bool>)
    requires IsPassInput(frame, coins)
    ensures Processed(frame, width, false, false, false, coins) == frame
  {
    PixelPassFacts(frame, false, false, coins);
  }

  /** The body of the first in-place loop, on the pixel whose red byte is at
      `i`: noise when it is on and the pixel's random draw hit, then invert when
      it is on. No other byte of the buffer changes. */
  method ShadeInPlace(data: array<int>, i: nat, noise: bool, hit: bool, invert: bool)
    requires i + 3 < data.Length
    requires IsPixel(Rgba(data[i], data[i + 1], data[i + 2], data[i + 3]))
    modifies data
    ensures var q := Shade(old(Rgba(data[i], data[i + 1], data[i + 2], data[i + 3])), noise, hit, invert);
            data[i] == q.r && data[i + 1] == q.g && data[i + 2] == q.b && data[i + 3] == q.a
    ensures forall j :: 0 <= j < data.Length && (j < i || i + 3 <= j) ==> data[j] == old(data[j])
  {
    if noise && hit {
      data[i], data[i + 1], data[i + 2] := 0, 0, 0;
      data[i] := 255;
    }
    if invert {
      var red, green, blue := data[i], data[i + 1], data[i + 2];
      data[i] := Store(Int(255 - red));
      data[i + 1] := Store(Int(255 - green));
      data[i + 2] := Store(Int(255 - blue));
    }
  }

  /** The first in-place loop, one pixel (four bytes) per iteration.
      `coins[k]` is the outcome of pixel `k`'s random draw, consulted only when
      noise is on. */
  method PixelLoop(frame: seq<int>, noise: bool, invert: bool, coins: seq<bool>)
    returns (out: seq<int>)
    requires IsPassInput(frame, coins)
    ensures out == PixelPass(frame, noise, invert, coins)
  {
    var data := new int[|frame|](j requires 0 <= j < |frame| => frame[j]);
    var length := data.Length;
    var i := 0;
    ghost var k := 0;
    while i < length
      invariant i == 4 * k && i <= length
      invariant ShadedPrefix(data[..], frame, noise, invert, coins, k)
      invariant forall j :: i <= j < length ==> data[j] == frame[j]
    {
      assert i / 4 == k;
      ghost var before := data[..];
      ShadeInPlace(data, i, noise, noise && coins[i / 4], invert);
      ShadedPrefixStep(before, data[..], frame, noise, invert, coins, k);
      i := i + 4;
      k := k + 1;
    }
    ShadedIsPixelPass(data[..], frame, noise, invert, coins);
    out := data[..];
  }

  /** The emboss loop: every colour byte in ascending order receives
      `127 + 2*d[i] - d[i+4] - d[i+4*width]`, read from the buffer as it stands.
      The loop follows EmbossFrom step by step; since each step reads only bytes
      at or after its own index, the result is emboss of the buffer before the
      loop (EmbossInPlaceIsSnapshot). */
  method EmbossLoop(buffer: seq<int>, width: nat) returns (out: seq<int>)
    requires IsBytes(buffer)
    ensures out == Emboss(buffer, width)
  {
    var data := new int[|buffer|](j requires 0 <= j < |buffer| => buffer[j]);
    var length := data.Length;
    var i := 0;
    assert data[..] == buffer;
    EmbossInPlaceIsSnapshot(buffer, width);
    while i < length
      invariant i <= length == |buffer|
      invariant EmbossFrom(data[..], width, i) == Emboss(buffer, width)
    {
      if i % 4 != 3 {
        EmbossFromStep(data[..], width, i);
        EmbossInPlace(data, width, i);
      }
      i := i + 1;
    }
    EmbossFromDone(data[..], width);
    out := data[..];
  }

  /** The body of the emboss loop on colour byte `i`: the sum is read from the
      buffer as it stands, and only byte `i` changes. */
  method EmbossInPlace(data: array<int>, width: nat, i: nat)
    requires i < data.Length
    modifies data
    ensures data[..] == old(data[..])[i := Store(EmbossValue(old(data[..]), width, i))]
  {
    var length := data.Length;
    var right := if i + 4 < length then Int(data[i + 4]) else NaN;
    var below := if i + width * 4 < length then Int(data[i + width * 4]) else NaN;
    data[i] := Store(Minus(Minus(Int(127 + 2 * data[i]), right), below));
  }

  /** The whole post-process of one frame. */
  method ProcessFrame(frame: seq<int>, width: nat, height: nat, noise: bool, invert: bool,
                     emboss: bool, coins: seq<bool>) returns (out: seq<int>)
    requires IsImage(frame, width, height)
    requires |coins| == width * height
    ensures out == Processed(frame, width, noise, invert, emboss, coins)
    ensures IsImage(out, width, height)
  {
    out := PixelLoop(frame, noise, invert, coins);
    PixelPassFacts(frame, noise, invert, coins);
    if emboss {
      out := EmbossLoop(out, width);
    }
  }
}
