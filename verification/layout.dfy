/** The per-theme configuration records and the layout arithmetic `setupCanvas`
    performs once the number of frequency bins is known. Geometry is over
    `real`, an idealisation of JavaScript's doubles. */
module Layout {

  /** The analyser's transform size (`numSamples` in the audio defaults). */
  const FftSize: nat := 128

  predicate IsPowerOfTwo(n: nat)
    decreases n
  {
    n == 1 || (n >= 2 && n % 2 == 0 && IsPowerOfTwo(n / 2))
  }

  /** The transform sizes an AnalyserNode accepts: powers of two from 32 to 32768. */
  predicate IsFftSize(n: nat) {
    32 <= n <= 32768 && IsPowerOfTwo(n)
  }

  /** Length of the frequency buffer: half the transform size. */
  function BinCount(fftSize: nat): (n: nat)
    requires IsFftSize(fftSize)
    ensures 16 <= n <= 16384 && 2 * n == fftSize
  {
    fftSize / 2
  }

  /** The configured analyser yields 64 bins. */
  lemma DefaultBinCount()
    ensures IsFftSize(FftSize) && BinCount(FftSize) == 64
  {
  }

  /** One of the three Pyre waves: the bin driving its amplitude, its period
      (`sinusoidNWidth`, the width of each curve segment) and its colour. */
  datatype WaveInfo = WaveInfo(bin: nat, period: real, stroke: string)

  datatype PyreInfo = PyreInfo(
    spacing: real,
    margin: real,
    startpos: real,
    endpos: real,
    width: real,
    barWidth: real,
    barHeight: real,
    topSpacing: real,
    travelDistance: real,
    fillStyle: string,
    strokeStyle: string,
    backgroundColor: string,
    wave1: WaveInfo,
    wave2: WaveInfo,
    wave3: WaveInfo,
    sinusoidY: real,
    sinusoidMaxDistance: real)

  datatype Ror2Info = Ror2Info(
    spacing: real,
    centerX: real,
    centerY: real,
    innerRadius: real,
    outerRadius: real,
    minTheta: real,
    maxTheta: real,
    width: real,
    barWidth: real,
    fillStyle: string,
    strokeStyle: string,
    backgroundColor: string)

  datatype HkInfo = HkInfo(
    startpos: real,
    endpos: real,
    spacing: real,
    barY: real,
    width: real,
    barWidth: real,
    fillStyle: string,
    strokeStyle: string,
    backgroundColor: string)

  /** JavaScript's Math.PI, written as the shortest decimal of that double. */
  const Pi: real := 3.141592653589793

  const InitialPyre := PyreInfo(
    4.0, 5.0, 244.0, 795.0, 0.0, 0.0, 300.0, 440.0, 100.0,
    "rgba(202,23,62,1)", "rgba(0,0,0,0.50)", "rgb(9,13,33)",
    WaveInfo(5, 45.0, "rgba(0,138,239,1)"),
    WaveInfo(26, 27.0, "rgba(167,64,191,1)"),
    WaveInfo(35, 10.0, "rgba(185,185,185,1)"),
    500.0, 75.0)

  const InitialRor2 := Ror2Info(
    2.0, 500.0, 450.0, 150.0, 600.0, 0.0, Pi, 0.0, 0.0,
    "rgb(72,33,73)", "rgba(0,0,0,0.50)", "rgb(72,33,73)")

  const InitialHk := HkInfo(
    0.0, 551.0, 2.0, 0.0, 0.0, 0.0,
    "rgb(72,33,73)", "rgba(0,0,0,0.50)", "rgb(0,0,0)")

  /** Pyre's bar layout for `n` bins: `width` is the span between the margins
      less one spacing per bar, shared equally as `barWidth`. So `n` bars with
      their spacings exactly fill the span between the two margins. Nothing
      else in the record changes. */
  function SetupPyre(info: PyreInfo, n: nat): (r: PyreInfo)
    requires n > 0
    ensures n as real * r.barWidth == r.width
    ensures n as real * (r.barWidth + r.spacing) + 2.0 * r.margin == r.endpos - r.startpos
    ensures r == info.(width := r.width, barWidth := r.barWidth)
  {
    var width := (info.endpos - info.startpos) - (n as real * info.spacing) - info.margin * 2.0;
    info.(width := width, barWidth := width / n as real)
  }

  /** RoR2's ring layout for `n` bins: `n` rings with their spacings exactly
      fill the band between the inner and outer radius. Nothing else changes. */
  function SetupRor2(info: Ror2Info, n: nat): (r: Ror2Info)
    requires n > 0
    ensures n as real * r.barWidth == r.width
    ensures n as real * (r.barWidth + r.spacing) == r.outerRadius - r.innerRadius
    ensures r == info.(width := r.width, barWidth := r.barWidth)
  {
    var width := (info.outerRadius - info.innerRadius) - (n as real * info.spacing);
    info.(width := width, barWidth := width / n as real)
  }

  /** The drawing state `setupCanvas` leaves behind: the canvas size, the bin
      count, and the three theme records (HK's is not touched). */
  datatype Canvas = Canvas(width: nat, height: nat, bins: nat,
                           pyre: PyreInfo, ror2: Ror2Info, hk: HkInfo)

  function SetupCanvas(canvasWidth: nat, canvasHeight: nat, fftSize: nat): (c: Canvas)
    requires IsFftSize(fftSize)
    ensures 2 * c.bins == fftSize
    ensures c.width == canvasWidth && c.height == canvasHeight
    ensures c.pyre == SetupPyre(InitialPyre, c.bins) && c.ror2 == SetupRor2(InitialRor2, c.bins)
    ensures c.hk == InitialHk
  {
    var n := BinCount(fftSize);
    Canvas(canvasWidth, canvasHeight, n, SetupPyre(InitialPyre, n), SetupRor2(InitialRor2, n), InitialHk)
  }

  /** Pyre's bars have positive width exactly when the bars' spacings and the
      two margins leave room between `startpos` and `endpos`; for the 64 bins
      of the configured analyser the width is 285/64. */
  lemma PyreBarWidthPositive(n: nat)
    requires n > 0
    ensures SetupPyre(InitialPyre, n).barWidth > 0.0 <==> 4 * n + 10 < 551
    ensures n == 64 ==> SetupPyre(InitialPyre, n).barWidth == 285.0 / 64.0
  {
  }

  /** For the configured analyser, RoR2's ring width is 322/64. */
  lemma Ror2DefaultBarWidth()
    ensures SetupRor2(InitialRor2, 64).barWidth == 322.0 / 64.0
  {
  }
}
