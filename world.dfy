/** The tiles and platforms the player collides with, and the game's tuning constants. */
module World {
  import opened Geometry

  datatype Option<T> = None | Some(value: T)

  /** The type tag a terrain sprite carries; any tag the core does not know is `OtherTag`. */
  datatype Tag = Basic | MovingObject | RightRamp | LeftRamp | OtherTag(code: int)

  /** The axis a moving platform travels along. */
  datatype Plane = PlaneX | PlaneY

  /**
   * What a moving platform exposes to the player: its rectangle in the previous frame,
   * its speed and unit direction, the axis of its path, and whether it carries the
   * player without bottom contact.
   */
  datatype Motion = Motion(oldRect: Rect, speed: real, dx: real, dy: real, plane: Plane, fullCollision: bool)

  /**
   * A sprite of a collision group; `motion` is present exactly when the sprite has the
   * `moving` attribute, which is what makes it a candidate carrier.
   */
  datatype Sprite = Sprite(rect: Rect, tag: Tag, motion: Option<Motion>)

  /** Tiles that collide as full rectangles. */
  predicate IsBasicKind(t: Tag) { t == Basic || t == MovingObject }

  /** The 45-degree ramp tiles. */
  predicate IsRampKind(t: Tag) { t == RightRamp || t == LeftRamp }

  /**
   * A sprite tagged as a moving object has the path data the resolver reads from it
   * (without it the resolver would fail on a missing attribute).
   */
  predicate MotionTagged(s: Sprite) { s.tag == MovingObject ==> s.motion.Some? }

  predicate AllMotionTagged(ss: seq<Sprite>) {
    forall i :: 0 <= i < |ss| ==> MotionTagged(ss[i])
  }

  /** A sprite list whose moving objects all carry their path data. */
  type TaggedSprites = ss: seq<Sprite> | AllMotionTagged(ss) witness []

  type Positive = r: real | r > 0.0 witness 1.0

  /** `TILE_SIZE`, `PLAYER_VEL_Y` (the jump impulse) and `PLAYER_MAX_VEL_X`. */
  datatype Settings = Settings(tileSize: Positive, jumpVelocity: Positive, maxVelX: Positive)
}
