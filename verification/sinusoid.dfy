/** The wave drawn by `drawSinusoid`: from (startX, y), a chain of quadratic
    curve segments, two per loop iteration, each `frequency` wide, whose control
    points sit alternately `amplitude` below and above the baseline `y` (screen
    y grows downwards). The path is returned instead of being stroked. */
module Sinusoid {

  /** One `quadraticCurveTo`: control point (cpx, cpy), end point (x, y). */
  datatype Quad = Quad(cpx: real, cpy: real, x: real, y: real)

  /** A `moveTo(startX, startY)` followed by quadratic segments, stroked in `stroke`. */
  datatype Path = Path(startX: real, startY: real, segments: seq<Quad>, stroke: string)

  function Ceil(x: real): int {
    -((-x).Floor)
  }

  /** How many more iterations the loop runs from `currentX`: each one adds
      `2 * frequency`, and the loop continues while `currentX + startX < endX`. */
  function Remaining(startX: real, endX: real, frequency: real, currentX: real): int
    requires frequency > 0.0
  {
    Ceil((endX - startX - currentX) / (2.0 * frequency))
  }

  lemma RemainingStep(startX: real, endX: real, frequency: real, currentX: real)
    requires frequency > 0.0 && currentX + startX < endX
    ensures Remaining(startX, endX, frequency, currentX) > 0
    ensures Remaining(startX, endX, frequency, currentX + 2.0 * frequency)
            == Remaining(startX, endX, frequency, currentX) - 1
  {
    var d := endX - startX - currentX;
    var f2 := 2.0 * frequency;
    DivSub(d, f2);
    assert d / f2 > 0.0;
  }

  lemma DivSub(a: real, b: real)
    requires b > 0.0
    ensures (a - b) / b == a / b - 1.0
  {
    assert (a - b) / b == a / b - b / b;
  }

  /** The segments the loop emits from `currentX` on. The loop body emits a
      segment with its control point at `amplitude + y`, advances `currentX` by
      `frequency`, emits one with its control point at `-amplitude + y`, and
      advances again. The loop runs `Remaining` more iterations, two segments
      each. */
  function Segments(startX: real, endX: real, y: real, amplitude: real, frequency: real,
                    currentX: real): (segs: seq<Quad>)
    requires frequency > 0.0
    ensures |segs| == if currentX + startX < endX then 2 * Remaining(startX, endX, frequency, currentX) else 0
    decreases Remaining(startX, endX, frequency, currentX)
  {
    if currentX + startX < endX then
      RemainingStep(startX, endX, frequency, currentX);
      var next := currentX + frequency;
      RemainingDone(startX, endX, frequency, next + frequency);
      [Quad(startX + currentX + frequency / 2.0, amplitude + y, startX + currentX + frequency, y),
       Quad(startX + next + frequency / 2.0, -amplitude + y, startX + next + frequency, y)]
      + Segments(startX, endX, y, amplitude, frequency, next + frequency)
    else
      []
  }

  /** Segment `k` ends on the baseline `k + 1` steps of `frequency` along,
      its control point is half a step before that end, and the control points
      alternate between `y + amplitude` and `y - amplitude`. */
  ghost predicate IsWaveSegment(q: Quad, k: nat, x0: real, y: real, amplitude: real, frequency: real) {
    && q.x == x0 + (k + 1) as real * frequency
    && q.y == y
    && q.cpx == x0 + k as real * frequency + frequency / 2.0
    && q.cpy == (if k % 2 == 0 then y + amplitude else y - amplitude)
  }

  /** A segment two places further along, counted from two steps earlier. */
  lemma ShiftSegment(q: Quad, k: nat, x0: real, x1: real, y: real, amplitude: real, frequency: real)
    requires x1 == x0 + 2.0 * frequency
    requires IsWaveSegment(q, k, x1, y, amplitude, frequency)
    ensures IsWaveSegment(q, k + 2, x0, y, amplitude, frequency)
  {
  }

  /** One loop iteration: two wave segments, then whatever the loop emits from
      two steps further on. */
  lemma SegmentsStep(startX: real, endX: real, y: real, amplitude: real, frequency: real,
                     currentX: real)
    requires frequency > 0.0 && currentX + startX < endX
    ensures var segs := Segments(startX, endX, y, amplitude, frequency, currentX);
            var rest := Segments(startX, endX, y, amplitude, frequency, currentX + frequency + frequency);
            && |segs| == |rest| + 2
            && segs[2..] == rest
            && IsWaveSegment(segs[0], 0, startX + currentX, y, amplitude, frequency)
            && IsWaveSegment(segs[1], 1, startX + currentX, y, amplitude, frequency)
  {
  }

  lemma {:induction false} SegmentsShape(startX: real, endX: real, y: real, amplitude: real,
                                         frequency: real, currentX: real)
    requires frequency > 0.0
    ensures var segs := Segments(startX, endX, y, amplitude, frequency, currentX);
            forall k :: 0 <= k < |segs| ==>
                 IsWaveSegment(segs[k], k, startX + currentX, y, amplitude, frequency)
    decreases Remaining(startX, endX, frequency, currentX)
  {
    if currentX + startX < endX {
      RemainingStep(startX, endX, frequency, currentX);
      var next := currentX + frequency + frequency;
      var segs := Segments(startX, endX, y, amplitude, frequency, currentX);
      var rest := Segments(startX, endX, y, amplitude, frequency, next);
      SegmentsStep(startX, endX, y, amplitude, frequency, currentX);
      SegmentsShape(startX, endX, y, amplitude, frequency, next);
      forall k | 2 <= k < |segs|
        ensures IsWaveSegment(segs[k], k, startX + currentX, y, amplitude, frequency)
      {
        assert segs[k] == rest[k - 2];
        ShiftSegment(rest[k - 2], k - 2, startX + currentX, startX + next, y, amplitude, frequency);
      }
    }
  }

  /** Once the loop condition fails, no iterations remain. */
  lemma RemainingDone(startX: real, endX: real, frequency: real, currentX: real)
    requires frequency > 0.0
    ensures endX <= currentX + startX ==> Remaining(startX, endX, frequency, currentX) <= 0
  {
  }

  lemma {:induction false} SegmentsEnd(startX: real, endX: real, y: real, amplitude: real,
                                       frequency: real, currentX: real)
    requires frequency > 0.0
    ensures var segs := Segments(startX, endX, y, amplitude, frequency, currentX);
            && (|segs| == 0 <==> endX <= startX + currentX)
            && (|segs| > 0 ==> endX <= segs[|segs| - 1].x < endX + 2.0 * frequency)
    decreases Remaining(startX, endX, frequency, currentX)
  {
    if currentX + startX < endX {
      RemainingStep(startX, endX, frequency, currentX);
      var next := currentX + frequency + frequency;
      var segs := Segments(startX, endX, y, amplitude, frequency, currentX);
      var rest := Segments(startX, endX, y, amplitude, frequency, next);
      SegmentsEnd(startX, endX, y, amplitude, frequency, next);
      assert segs == segs[..2] + rest;
      if |rest| > 0 {
        assert segs[|segs| - 1] == rest[|rest| - 1];
      }
    }
  }

  /** `drawSinusoid` for a positive `frequency` (for any other the loop never
      ends once `startX < endX`). The wave starts at (startX, y); segment `k`
      ends at (startX + (k+1)*frequency, y); the control points alternate
      `y + amplitude` / `y - amplitude`; it is empty exactly when
      `endX <= startX`, and otherwise its last end point lies in
      [endX, endX + 2*frequency). */
  function DrawSinusoid(startX: real, endX: real, y: real, amplitude: real, frequency: real,
                        stroke: string): (p: Path)
    requires frequency > 0.0
    ensures p.startX == startX && p.startY == y && p.stroke == stroke
    ensures |p.segments| == if startX < endX then 2 * Ceil((endX - startX) / (2.0 * frequency)) else 0
    ensures forall k :: 0 <= k < |p.segments| ==>
              IsWaveSegment(p.segments[k], k, startX, y, amplitude, frequency)
    ensures |p.segments| == 0 <==> endX <= startX
    ensures |p.segments| > 0 ==>
              endX <= p.segments[|p.segments| - 1].x < endX + 2.0 * frequency
  {
    SegmentsShape(startX, endX, y, amplitude, frequency, 0.0);
    SegmentsEnd(startX, endX, y, amplitude, frequency, 0.0);
    Path(startX, y, Segments(startX, endX, y, amplitude, frequency, 0.0), stroke)
  }
}
