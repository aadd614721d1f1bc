/**
 * Floor height of a 45-degree ramp tile (`collision_ramp`). The ramp is a right isosceles
 * triangle, so the height of its surface under the player follows from the horizontal
 * offset alone.
 */
module Ramp {
  import opened Geometry
  import opened World

  /** The bound applied to the raw height: first `min` with the tile size, then `max` with 0. */
  function ClampHeight(v: real, tile: Positive): (r: real)
    ensures 0.0 <= r <= tile
    ensures 0.0 <= v <= tile ==> r == v
    ensures v > tile ==> r == tile
    ensures v < 0.0 ==> r == 0.0
  {
    Max(Min(v, tile), 0.0)
  }

  /**
   * Height of the surface of `ramp` below a rectangle at `tar.x` of the given width:
   * a right ramp rises to the right (measured at the rectangle's right edge), a left ramp
   * falls to the right (measured at its left edge).
   */
  function OccupiedHeight(tar: Rect, width: real, ramp: Sprite, tile: Positive): (hgt: real)
    ensures 0.0 <= hgt <= tile
  {
    var relX := tar.x - ramp.rect.x;
    ClampHeight(if ramp.tag == RightRamp then relX + width else tile - relX, tile)
  }

  /** The y coordinate of the ramp surface below the rectangle. */
  function FloorY(tar: Rect, width: real, ramp: Sprite, tile: Positive): (y: real)
    ensures ramp.rect.y <= y <= ramp.rect.y + tile
  {
    ramp.rect.y + tile - OccupiedHeight(tar, width, ramp, tile)
  }

  /** The pair `(collides, target_y)` the source returns. */
  datatype RampHit = RampHit(collides: bool, floorY: real)

  /**
   * `collision_ramp`: the rectangle stands on the ramp when its bottom is at or below the
   * surface and no more than one unit below the tile's bottom edge; it then gets the
   * surface height, otherwise `(false, 0)`. `width` is the player's own width, which the
   * source uses whatever rectangle it is probing with.
   */
  function CollisionRamp(tar: Rect, width: real, ramp: Sprite, tile: Positive): (r: RampHit)
    ensures r.collides ==> ramp.rect.y <= r.floorY <= ramp.rect.y + tile
    ensures r.collides ==> r.floorY == FloorY(tar, width, ramp, tile)
    ensures r.collides ==> r.floorY <= tar.Bottom() && tar.Bottom() - 1.0 <= ramp.rect.Bottom()
    ensures !r.collides ==> r.floorY == 0.0
    ensures !r.collides ==>
      tar.Bottom() < FloorY(tar, width, ramp, tile) || tar.Bottom() - 1.0 > ramp.rect.Bottom()
  {
    var targetY := FloorY(tar, width, ramp, tile);
    if tar.Bottom() >= targetY && tar.Bottom() - 1.0 <= ramp.rect.Bottom() then
      RampHit(true, targetY)
    else
      RampHit(false, 0.0)
  }

  /** Inside the unclamped range the height is `rel_x + width` (right) or `TILE_SIZE - rel_x` (left). */
  lemma OccupiedHeightUnclamped(tar: Rect, width: real, ramp: Sprite, tile: Positive)
    ensures ramp.tag == RightRamp && 0.0 <= tar.x - ramp.rect.x + width <= tile ==>
      OccupiedHeight(tar, width, ramp, tile) == tar.x - ramp.rect.x + width
    ensures ramp.tag != RightRamp && 0.0 <= tile - (tar.x - ramp.rect.x) <= tile ==>
      OccupiedHeight(tar, width, ramp, tile) == tile - (tar.x - ramp.rect.x)
  {
  }

  /**
   * The slope is 45 degrees: within the tile, moving right by `d` raises the surface of a
   * right ramp by `d` and lowers that of a left ramp by `d`.
   */
  lemma FloorSlope(t1: Rect, t2: Rect, width: real, ramp: Sprite, tile: Positive)
    requires ramp.tag == RightRamp ==>
      0.0 <= t1.x - ramp.rect.x + width <= tile && 0.0 <= t2.x - ramp.rect.x + width <= tile
    requires ramp.tag != RightRamp ==> 0.0 <= t1.x - ramp.rect.x <= tile && 0.0 <= t2.x - ramp.rect.x <= tile
    ensures ramp.tag == RightRamp ==>
      FloorY(t2, width, ramp, tile) == FloorY(t1, width, ramp, tile) - (t2.x - t1.x)
    ensures ramp.tag != RightRamp ==>
      FloorY(t2, width, ramp, tile) == FloorY(t1, width, ramp, tile) + (t2.x - t1.x)
  {
    OccupiedHeightUnclamped(t1, width, ramp, tile);
    OccupiedHeightUnclamped(t2, width, ramp, tile);
  }

  /** Clamping keeps the surface monotone everywhere, also outside the tile. */
  lemma FloorMonotone(t1: Rect, t2: Rect, width: real, ramp: Sprite, tile: Positive)
    requires t1.x <= t2.x
    ensures ramp.tag == RightRamp ==> FloorY(t2, width, ramp, tile) <= FloorY(t1, width, ramp, tile)
    ensures ramp.tag != RightRamp ==> FloorY(t2, width, ramp, tile) >= FloorY(t1, width, ramp, tile)
  {
  }

  /**
   * A right ramp at (0, 0) with tiles of 32 and a player 16 wide at x = 8: the surface is at
   * y = 8, a bottom at 8 stands on it and a bottom at 7 does not.
   */
  lemma RightRampExample(h: real)
    requires h > 0.0
    ensures var ramp := Sprite(Rect(0.0, 0.0, 32.0, 32.0), RightRamp, None);
      && CollisionRamp(Rect(8.0, 8.0 - h, 16.0, h), 16.0, ramp, 32.0) == RampHit(true, 8.0)
      && !CollisionRamp(Rect(8.0, 7.0 - h, 16.0, h), 16.0, ramp, 32.0).collides
  {
  }
}
