/** The two drawable sprite classes: a filled square and an image-backed one,
    each with a position, a size (`span`), a heading (`fwd`) and a speed.
    Constructor arguments left out take their defaults; an omitted argument is
    `None`. */
module Sprites {
  import opened Wrappers
  import opened Themes

  datatype Vec = Vec(x: real, y: real)

  /** The image an image sprite draws, by its index in the image list. */
  type ImageRef = nat

  /** A sprite's state; `image` is present exactly for an image sprite. */
  datatype Sprite = Sprite(x: real, y: real, span: real, fwd: Vec, speed: real, color: string,
                           image: Option<ImageRef>)

  /** `new Sprite(x, y, span, fwd, speed, color)`. */
  function NewSprite(x: Option<real>, y: Option<real>, span: Option<real>, fwd: Option<Vec>,
                     speed: Option<real>, color: Option<string>): (s: Sprite)
    ensures s.image.None?
    ensures x.Some? ==> s.x == x.value
    ensures y.Some? ==> s.y == y.value
    ensures span.Some? ==> s.span == span.value
    ensures fwd.Some? ==> s.fwd == fwd.value
    ensures speed.Some? ==> s.speed == speed.value
    ensures color.Some? ==> s.color == color.value
  {
    Sprite(x.GetOr(0.0), y.GetOr(0.0), span.GetOr(10.0), fwd.GetOr(Vec(1.0, 0.0)),
           speed.GetOr(0.0), color.GetOr("black"), None)
  }

  /** With every argument omitted, a sprite is a black 10-wide square at the
      origin, heading along +x at speed 0. */
  lemma DefaultSprite()
    ensures NewSprite(None, None, None, None, None, None)
            == Sprite(0.0, 0.0, 10.0, Vec(1.0, 0.0), 0.0, "black", None)
  {
  }

  /** `new ImageSprite(image, x, y, span, fwd, speed)`: the superclass
      constructor with the same arguments and no colour, plus the image. So its
      colour is always the default black. */
  function NewImageSprite(image: ImageRef, x: Option<real>, y: Option<real>, span: Option<real>,
                          fwd: Option<Vec>, speed: Option<real>): (s: Sprite)
    ensures s.image == Some(image)
    ensures s.color == "black"
    ensures s.(image := None) == NewSprite(x, y, span, fwd, speed, None)
  {
    NewSprite(x, y, span, fwd, speed, None).(image := Some(image))
  }

  /** `move`: one step of `speed` along `fwd`; nothing but the position changes. */
  function Move(s: Sprite): (r: Sprite)
    ensures r == s.(x := r.x, y := r.y)
    ensures r.x - s.x == s.fwd.x * s.speed && r.y - s.y == s.fwd.y * s.speed
  {
    s.(x := s.x + s.fwd.x * s.speed, y := s.y + s.fwd.y * s.speed)
  }

  /** A sprite at speed 0, the default, does not move. */
  lemma MoveStill(s: Sprite)
    requires s.speed == 0.0
    ensures Move(s) == s
  {
  }

  /** `n` calls of `move`. */
  function MoveTimes(s: Sprite, n: nat): Sprite {
    if n == 0 then s else Move(MoveTimes(s, n - 1))
  }

  /** `n` moves travel `n * speed` along the heading, in a straight line. */
  lemma {:induction false} MoveTimesTravel(s: Sprite, n: nat)
    ensures MoveTimes(s, n) == s.(x := s.x + n as real * s.fwd.x * s.speed,
                                  y := s.y + n as real * s.fwd.y * s.speed)
  {
    if n > 0 {
      MoveTimesTravel(s, n - 1);
      var m := (n - 1) as real;
      assert m * s.fwd.x * s.speed + s.fwd.x * s.speed == n as real * s.fwd.x * s.speed;
      assert m * s.fwd.y * s.speed + s.fwd.y * s.speed == n as real * s.fwd.y * s.speed;
    }
  }

  /** What `draw` paints: a square filled with the sprite's colour, or the
      sprite's image stretched over the square. */
  datatype Drawing = Filled(square: Rect, color: string) | Picture(square: Rect, image: ImageRef)

  /** `draw`: after translating to the sprite's position, a `span`-sided square
      from (-span/2, -span/2), so the square is centred on the sprite. */
  function DrawSprite(s: Sprite): (d: Drawing)
    ensures d.square.w == s.span && d.square.h == s.span
    ensures d.square.x + d.square.w / 2.0 == s.x && d.square.y + d.square.h / 2.0 == s.y
    ensures d.Filled? <==> s.image.None?
    ensures d.Filled? ==> d.color == s.color
    ensures d.Picture? ==> s.image == Some(d.image)
  {
    var square := Rect(s.x + -s.span / 2.0, s.y + -s.span / 2.0, s.span, s.span);
    match s.image
    case None => Filled(square, s.color)
    case Some(image) => Picture(square, image)
  }

  /** Moving a sprite shifts its drawn square by the step and changes nothing
      else about the drawing. */
  lemma MoveShiftsDrawing(s: Sprite)
    ensures var d := DrawSprite(s);
            var e := DrawSprite(Move(s));
            e == d.(square := d.square.(x := d.square.x + s.fwd.x * s.speed,
                                        y := d.square.y + s.fwd.y * s.speed))
  {
  }
}
