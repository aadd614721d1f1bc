/**
 * Collision resolution (`collision`, `semi_collisions`): once per axis per frame the player
 * is pushed out of the tiles it overlaps. Every side test is directional: a side snaps
 * only if the player was outside that edge last frame (`old_rect`) and is at or past it now.
 */
module Resolve {
  import opened Geometry
  import opened World
  import opened Ramp
  import opened Broadphase
  import opened Contact

  datatype Axis = Horizontal | Vertical

  /**
   * The part of the player that resolution reads and writes: `rect`, `old_rect`, the
   * velocity, `is_jumping`, `on_ramp_wall`, `on_ramp_slope` (`onSlope`, `rampType`) and
   * the contact flags.
   */
  datatype Body = Body(
    rect: Rect, oldRect: Rect, velX: real, velY: real, isJumping: bool,
    onRampWall: bool, onSlope: bool, rampType: Option<Tag>, sides: Sides)

  /** The player's bottom reached the top of `t` coming from above. */
  predicate FromAbove(b: Body, t: Rect) { b.rect.Bottom() >= t.Top() && b.oldRect.Bottom() <= t.Top() }

  /** The player's top reached the bottom of `t` coming from below. */
  predicate FromBelow(b: Body, t: Rect) { b.rect.Top() <= t.Bottom() && b.oldRect.Top() >= t.Bottom() }

  /** The player's left side reached the right edge of `t` coming from the right. */
  predicate FromRight(b: Body, t: Rect) { b.rect.Left() <= t.Right() && b.oldRect.Left() >= t.Right() }

  /** The player's right side reached the left edge of `t` coming from the left. */
  predicate FromLeft(b: Body, t: Rect) { b.rect.Right() >= t.Left() && b.oldRect.Right() <= t.Left() }

  /** A platform moving right reaches the player's left side (its last edge plus one step). */
  predicate PushesLeftSide(s: Sprite, m: Motion, r: Rect) {
    s.rect.Right() >= r.Left() && m.oldRect.Right() - m.speed <= r.Left()
  }

  /** A platform moving left reaches the player's right side. */
  predicate PushesRightSide(s: Sprite, m: Motion, r: Rect) {
    s.rect.Left() <= r.Right() && m.oldRect.Left() + m.speed >= r.Right()
  }

  /** A platform moving up reaches the player's bottom. */
  predicate RisesInto(s: Sprite, m: Motion, r: Rect) {
    s.rect.Top() <= r.Bottom() && m.oldRect.Top() + m.speed >= r.Bottom()
  }

  /** A platform moving down reaches the player's top. */
  predicate DescendsOnto(s: Sprite, m: Motion, r: Rect) {
    s.rect.Bottom() >= r.Top() && m.oldRect.Bottom() - m.speed <= r.Top()
  }

  /** A moving platform whose path runs along x. */
  predicate OnXPath(s: Sprite) { s.tag == MovingObject && s.motion.Some? && s.motion.value.plane == PlaneX }

  /** A moving platform whose path runs along y. */
  predicate OnYPath(s: Sprite) { s.tag == MovingObject && s.motion.Some? && s.motion.value.plane == PlaneY }

  /** Hitting a ceiling while jumping keeps a quarter of the upward speed and ends the jump. */
  function CutJump(b: Body): (r: Body)
    ensures r == b.(velY := r.velY, isJumping := false)
    ensures r.velY == (if b.isJumping then b.velY * 0.25 else b.velY)
  {
    if b.isJumping then b.(velY := b.velY * 0.25, isJumping := false) else b
  }

  /**
   * On a slope with a tile just above: drop the top contact, cut the jump, stop, and put
   * the player back one unit beside last frame's position, away from the rising side.
   */
  function RampExitGuard(b: Body): (r: Body)
    ensures !(b.onSlope && b.sides.top) ==> r == b
    ensures b.onSlope && b.sides.top ==>
      && !r.sides.top && r.velX == 0.0 && !r.isJumping
      && r.velY == (if b.isJumping then b.velY * 0.25 else b.velY)
      && r.rect.Left() == r.oldRect.Left()
      && r.rect.Left() == b.oldRect.Left() + (if b.rampType == Some(RightRamp) then -1.0 else 1.0)
      && r.rect.y == b.rect.y && r.rect.w == b.rect.w && r.rect.h == b.rect.h
      && r.oldRect.y == b.oldRect.y && r.oldRect.w == b.oldRect.w && r.oldRect.h == b.oldRect.h
      && r.sides == b.sides.(top := false)
      && r.onSlope == b.onSlope && r.rampType == b.rampType && r.onRampWall == b.onRampWall
  {
    if b.onSlope && b.sides.top then
      var c := CutJump(b);
      var offset := if b.rampType == Some(RightRamp) then -1.0 else 1.0;
      c.(sides := c.sides.(top := false), velX := 0.0,
         rect := c.rect.WithLeft(c.oldRect.Left() + offset),
         oldRect := c.oldRect.WithLeft(c.oldRect.Left() + offset))
    else b
  }

  /** A semi-solid landing: stand on `top`, and stop only if falling. */
  function SemiLand(b: Body, top: real): Body {
    b.(velY := if b.velY > 0.0 then 0.0 else b.velY, rect := b.rect.WithBottom(top))
  }

  /** One semi-solid platform on the vertical axis: a rising platform first, then a landing from above. */
  function SemiStep(b: Body, s: Sprite): (r: Body)
    requires MotionTagged(s)
    ensures r == b.(rect := r.rect, velY := r.velY)
    ensures r.rect == b.rect || r.rect == b.rect.WithBottom(s.rect.Top())
    ensures r.velY == b.velY || (b.velY > 0.0 && r.velY == 0.0)
    ensures FromAbove(b, s.rect) || (OnYPath(s) && RisesInto(s, s.motion.value, b.rect)) ==>
      r.rect == b.rect.WithBottom(s.rect.Top()) && r.velY == (if b.velY > 0.0 then 0.0 else b.velY)
    ensures r != b ==> FromAbove(b, s.rect) || (OnYPath(s) && RisesInto(s, s.motion.value, b.rect))
  {
    var b1 := if OnYPath(s) && RisesInto(s, s.motion.value, b.rect) then SemiLand(b, s.rect.Top()) else b;
    if FromAbove(b1, s.rect) then SemiLand(b1, s.rect.Top()) else b1
  }

  /** A moving tile on the x path pushes the player out by its edge. */
  function MovingStepH(b: Body, s: Sprite): (r: Body)
    requires MotionTagged(s)
    ensures r == b.(rect := r.rect)
    ensures OnXPath(s) && PushesLeftSide(s, s.motion.value, b.rect) ==> r.rect == b.rect.WithLeft(s.rect.Right())
    ensures OnXPath(s) && !PushesLeftSide(s, s.motion.value, b.rect) && PushesRightSide(s, s.motion.value, b.rect) ==>
      r.rect == b.rect.WithRight(s.rect.Left())
    ensures r != b ==> OnXPath(s) && (PushesLeftSide(s, s.motion.value, b.rect) || PushesRightSide(s, s.motion.value, b.rect))
  {
    if OnXPath(s) then
      var m := s.motion.value;
      if PushesLeftSide(s, m, b.rect) then b.(rect := b.rect.WithLeft(s.rect.Right()))
      else if PushesRightSide(s, m, b.rect) then b.(rect := b.rect.WithRight(s.rect.Left()))
      else b
    else b
  }

  /**
   * The horizontal static-tile rule: only a crossing of an edge this frame snaps the player
   * flush to it, and the horizontal speed is kept while on a slope.
   */
  function StaticStepH(b: Body, t: Rect): (r: Body)
    ensures r == b.(rect := r.rect, velX := r.velX)
    ensures r.rect == b.rect || r.rect == b.rect.WithLeft(t.Right()) || r.rect == b.rect.WithRight(t.Left())
    ensures r.velX == b.velX || (r.velX == 0.0 && !b.onSlope)
    ensures r != b ==> FromRight(b, t) || FromLeft(b, t)
    ensures FromRight(b, t) ==> r.rect.Left() == t.Right()
    ensures !FromRight(b, t) && FromLeft(b, t) ==> r.rect.Right() == t.Left()
    ensures FromRight(b, t) || FromLeft(b, t) ==> r.velX == (if b.onSlope then b.velX else 0.0)
  {
    var v := if b.onSlope then b.velX else 0.0;
    if FromRight(b, t) then b.(velX := v, rect := b.rect.WithLeft(t.Right()))
    else if FromLeft(b, t) then b.(velX := v, rect := b.rect.WithRight(t.Left()))
    else b
  }

  /** A moving tile on the y path: rising into the player's feet or coming down on its head. */
  function MovingStepV(b: Body, s: Sprite): (r: Body)
    requires MotionTagged(s)
    ensures r == b.(rect := r.rect, velY := r.velY, isJumping := r.isJumping)
    ensures r.rect == b.rect || r.rect == b.rect.WithBottom(s.rect.Top()) || r.rect == b.rect.WithTop(s.rect.Bottom())
    ensures r.isJumping ==> b.isJumping
    ensures OnYPath(s) && RisesInto(s, s.motion.value, b.rect) ==>
      r.rect == b.rect.WithBottom(s.rect.Top()) && r.velY == 0.0 && r.isJumping == b.isJumping
    ensures OnYPath(s) && !RisesInto(s, s.motion.value, b.rect) && DescendsOnto(s, s.motion.value, b.rect) ==>
      r.rect == b.rect.WithTop(s.rect.Bottom()) && !r.isJumping
      && r.velY == (if b.isJumping then b.velY * 0.25 else b.velY)
    ensures r != b ==> OnYPath(s) && (RisesInto(s, s.motion.value, b.rect) || DescendsOnto(s, s.motion.value, b.rect))
  {
    if OnYPath(s) then
      var m := s.motion.value;
      if RisesInto(s, m, b.rect) then b.(velY := 0.0, rect := b.rect.WithBottom(s.rect.Top()))
      else if DescendsOnto(s, m, b.rect) then
        var c := CutJump(b);
        c.(rect := c.rect.WithTop(s.rect.Bottom()))
      else b
    else b
  }

  /**
   * The vertical static-tile rule: landing from above stops the fall and puts the feet on
   * the tile's top; hitting the tile's bottom from below cuts the jump and puts the head
   * against it.
   */
  function StaticStepV(b: Body, t: Rect): (r: Body)
    ensures r == b.(rect := r.rect, velY := r.velY, isJumping := r.isJumping)
    ensures r.rect == b.rect || r.rect == b.rect.WithBottom(t.Top()) || r.rect == b.rect.WithTop(t.Bottom())
    ensures r != b ==> FromAbove(b, t) || FromBelow(b, t)
    ensures FromAbove(b, t) ==> r.rect.Bottom() == t.Top() && r.velY == 0.0 && r.isJumping == b.isJumping
    ensures !FromAbove(b, t) && FromBelow(b, t) ==>
      r.rect.Top() == t.Bottom() && !r.isJumping && r.velY == (if b.isJumping then b.velY * 0.25 else b.velY)
    ensures r.isJumping ==> b.isJumping
    ensures r.velY != b.velY ==> r.velY == 0.0 || r.velY == b.velY * 0.25
  {
    if FromAbove(b, t) then b.(velY := 0.0, rect := b.rect.WithBottom(t.Top()))
    else if FromBelow(b, t) then
      var c := CutJump(b);
      c.(rect := c.rect.WithTop(t.Bottom()))
    else b
  }

  /** One basic or moving tile on the horizontal axis: the moving rule, then the static rule. */
  function BasicStepH(b: Body, s: Sprite): Body
    requires MotionTagged(s)
  {
    StaticStepH(MovingStepH(b, s), s.rect)
  }

  function BasicStepV(b: Body, s: Sprite): Body
    requires MotionTagged(s)
  {
    StaticStepV(MovingStepV(b, s), s.rect)
  }

  /**
   * One ramp on the horizontal axis. `on_ramp_wall` is reset for every ramp; only the
   * vertical wall face (the right side of a right ramp, the left side of a left ramp)
   * sets it and stops the player. The low end of the slope blocks only a player whose
   * bottom is below the ramp's bottom.
   */
  function RampStepH(b: Body, s: Sprite): (r: Body)
    ensures r == b.(rect := r.rect, velX := r.velX, onRampWall := r.onRampWall)
    ensures r.rect == b.rect || r.rect == b.rect.WithLeft(s.rect.Right()) || r.rect == b.rect.WithRight(s.rect.Left())
    ensures r.onRampWall <==> (if s.tag == RightRamp then FromRight(b, s.rect) else FromLeft(b, s.rect))
    ensures r.onRampWall ==> r.velX == 0.0
    ensures !r.onRampWall ==> r.velX == b.velX
    ensures s.tag == RightRamp && FromRight(b, s.rect) ==> r.rect == b.rect.WithLeft(s.rect.Right())
    ensures s.tag == RightRamp && !FromRight(b, s.rect) ==>
      r.rect == (if FromLeft(b, s.rect) && b.rect.Bottom() > s.rect.Bottom() then b.rect.WithRight(s.rect.Left()) else b.rect)
    ensures s.tag != RightRamp && FromLeft(b, s.rect) ==> r.rect == b.rect.WithRight(s.rect.Left())
    ensures s.tag != RightRamp && !FromLeft(b, s.rect) ==>
      r.rect == (if FromRight(b, s.rect) && b.rect.Bottom() > s.rect.Bottom() then b.rect.WithLeft(s.rect.Right()) else b.rect)
  {
    var b0 := b.(onRampWall := false);
    if s.tag == RightRamp then
      if FromRight(b0, s.rect) then b0.(onRampWall := true, velX := 0.0, rect := b0.rect.WithLeft(s.rect.Right()))
      else if FromLeft(b0, s.rect) && b0.rect.Bottom() > s.rect.Bottom() then b0.(rect := b0.rect.WithRight(s.rect.Left()))
      else b0
    else
      if FromLeft(b0, s.rect) then b0.(onRampWall := true, velX := 0.0, rect := b0.rect.WithRight(s.rect.Left()))
      else if FromRight(b0, s.rect) && b0.rect.Bottom() > s.rect.Bottom() then b0.(rect := b0.rect.WithLeft(s.rect.Right()))
      else b0
  }

  /**
   * One ramp on the vertical axis: its flat bottom acts as a ceiling; otherwise, unless the
   * player hit a ramp wall on the horizontal pass, a player standing on the slope is put on
   * its surface and marked as on a slope of that ramp's kind.
   */
  function RampStepV(b: Body, s: Sprite, tile: Positive): (r: Body)
    ensures r == b.(rect := r.rect, velY := r.velY, isJumping := r.isJumping, onSlope := r.onSlope, rampType := r.rampType)
    ensures r.isJumping ==> b.isJumping
    ensures b.onRampWall ==> r.onSlope == b.onSlope && r.rampType == b.rampType
    ensures (r.onSlope, r.rampType) != (b.onSlope, b.rampType) ==>
      && r.onSlope && r.rampType == Some(s.tag) && r.velY == 0.0
      && CollisionRamp(b.rect, b.rect.w, s, tile).collides
      && r.rect.Bottom() == CollisionRamp(b.rect, b.rect.w, s, tile).floorY
    ensures FromBelow(b, s.rect) ==>
      && r.rect == b.rect.WithTop(s.rect.Bottom()) && !r.isJumping
      && r.velY == (if b.isJumping then b.velY * 0.25 else b.velY)
      && r.onSlope == b.onSlope && r.rampType == b.rampType
    ensures !FromBelow(b, s.rect) && !b.onRampWall && CollisionRamp(b.rect, b.rect.w, s, tile).collides ==>
      && r.onSlope && r.rampType == Some(s.tag) && r.velY == 0.0 && r.isJumping == b.isJumping
      && r.rect == b.rect.WithBottom(CollisionRamp(b.rect, b.rect.w, s, tile).floorY)
    ensures !FromBelow(b, s.rect) && (b.onRampWall || !CollisionRamp(b.rect, b.rect.w, s, tile).collides) ==> r == b
  {
    if FromBelow(b, s.rect) then
      var c := CutJump(b);
      c.(rect := c.rect.WithTop(s.rect.Bottom()))
    else if !b.onRampWall then
      var hit := CollisionRamp(b.rect, b.rect.w, s, tile);
      if hit.collides then
        b.(onSlope := true, rampType := Some(s.tag), velY := 0.0, rect := b.rect.WithBottom(hit.floorY))
      else b
    else b
  }

  /** The three loops of the resolver. */
  datatype PassKind = SemiPass | BasicPass | RampPass

  /**
   * One sprite of one loop on one axis. Only the ramp loop touches the slope and wall
   * state; the semi-solid loop does nothing horizontally; after a ramp-wall hit a ramp
   * does not put the player on its slope.
   */
  function Step(kind: PassKind, axis: Axis, tile: Positive, b: Body, s: Sprite): (r: Body)
    requires MotionTagged(s)
    ensures kind != RampPass ==> r.onSlope == b.onSlope && r.rampType == b.rampType && r.onRampWall == b.onRampWall
    ensures kind == SemiPass && axis == Horizontal ==> r == b
    ensures kind == RampPass && axis == Vertical && b.onRampWall ==> r.onSlope == b.onSlope && r.rampType == b.rampType
  {
    match kind
    case SemiPass => if axis == Vertical then SemiStep(b, s) else b
    case BasicPass => if axis == Horizontal then BasicStepH(b, s) else BasicStepV(b, s)
    case RampPass => if axis == Horizontal then RampStepH(b, s) else RampStepV(b, s, tile)
  }

  /** Nothing vertical changes on the horizontal axis. */
  predicate SameVertical(a: Body, r: Body) {
    && r.rect.y == a.rect.y && r.rect.w == a.rect.w && r.rect.h == a.rect.h
    && r.oldRect == a.oldRect && r.velY == a.velY && r.isJumping == a.isJumping
    && r.onSlope == a.onSlope && r.rampType == a.rampType && r.sides == a.sides
  }

  /** Nothing horizontal changes on the vertical axis. */
  predicate SameHorizontal(a: Body, r: Body) {
    && r.rect.x == a.rect.x && r.rect.w == a.rect.w && r.rect.h == a.rect.h
    && r.oldRect == a.oldRect && r.velX == a.velX && r.onRampWall == a.onRampWall && r.sides == a.sides
  }

  lemma StepKeepsOtherAxis(kind: PassKind, axis: Axis, tile: Positive, b: Body, s: Sprite)
    requires MotionTagged(s)
    ensures axis == Horizontal ==> SameVertical(b, Step(kind, axis, tile, b, s))
    ensures axis == Vertical ==> SameHorizontal(b, Step(kind, axis, tile, b, s))
  {
    match kind
    case SemiPass =>
    case BasicPass =>
      if axis == Horizontal {
        var m := MovingStepH(b, s);
        assert SameVertical(b, m);
      } else {
        var m := MovingStepV(b, s);
        assert SameHorizontal(b, m);
      }
    case RampPass =>
  }

  /**
   * A loop over `ss` in order, each sprite seeing the state its predecessors left. Every
   * loop works on its own axis only; the semi-solid and basic loops keep the slope and
   * wall state; the semi-solid loop is the identity horizontally; and after a ramp-wall
   * hit the vertical ramp loop leaves the slope state alone.
   */
  function Fold(kind: PassKind, axis: Axis, tile: Positive, b: Body, ss: seq<Sprite>): (r: Body)
    requires AllMotionTagged(ss)
    ensures axis == Horizontal ==> SameVertical(b, r)
    ensures axis == Vertical ==> SameHorizontal(b, r)
    ensures kind != RampPass ==> r.onSlope == b.onSlope && r.rampType == b.rampType && r.onRampWall == b.onRampWall
    ensures kind == SemiPass && axis == Horizontal ==> r == b
    ensures kind == RampPass && axis == Vertical && b.onRampWall ==> r.onSlope == b.onSlope && r.rampType == b.rampType
    decreases |ss|
  {
    if ss == [] then b
    else
      var p := Fold(kind, axis, tile, b, ss[..|ss| - 1]);
      StepKeepsOtherAxis(kind, axis, tile, p, ss[|ss| - 1]);
      Step(kind, axis, tile, p, ss[|ss| - 1])
  }

  /**
   * `semi_collisions`: nothing at all while the drop-down timer runs or on the horizontal
   * axis; otherwise only the rectangle's vertical position and the vertical speed change,
   * and the speed only drops to 0 from a fall.
   */
  function SemiCollisions(b: Body, semis: seq<Sprite>, axis: Axis, dropActive: bool, tile: Positive): (r: Body)
    requires AllMotionTagged(semis)
    ensures dropActive || axis == Horizontal ==> r == b
    ensures r == b.(rect := r.rect, velY := r.velY)
    ensures r.rect.x == b.rect.x && r.rect.w == b.rect.w && r.rect.h == b.rect.h
    ensures r.velY == b.velY || (b.velY > 0.0 && r.velY == 0.0)
  {
    SemiPassOnlyLands(tile, b, semis);
    if dropActive then b else Fold(SemiPass, axis, tile, b, semis)
  }

  /**
   * `collision(axis)`: the ramp-exit guard, the broad phase on the guarded rectangle, then
   * the semi-solid, basic and ramp loops in that order. After the guard, the horizontal
   * call leaves the vertical position, the vertical speed and the jump and slope state
   * alone, and the vertical call the horizontal position, the horizontal speed and the
   * wall flag.
   */
  function Collision(b: Body, coll: seq<Sprite>, semis: seq<Sprite>, axis: Axis, dropActive: bool, tile: Positive): (r: Body)
    requires AllMotionTagged(coll) && AllMotionTagged(semis)
    ensures axis == Horizontal ==> SameVertical(RampExitGuard(b), r)
    ensures axis == Vertical ==> SameHorizontal(RampExitGuard(b), r)
  {
    var g := RampExitGuard(b);
    HitsMotionTagged(coll, g.rect, BasicList);
    HitsMotionTagged(coll, g.rect, RampList);
    HitsMotionTagged(semis, g.rect, SemiList);
    var s1 := SemiCollisions(g, Hits(semis, g.rect, SemiList), axis, dropActive, tile);
    var s2 := Fold(BasicPass, axis, tile, s1, Hits(coll, g.rect, BasicList));
    Fold(RampPass, axis, tile, s2, Hits(coll, g.rect, RampList))
  }

  /**
   * With the slope flag cleared before the vertical pass, as every frame does, the flag is
   * set afterwards only by a ramp tile the player overlapped, and then names that ramp.
   */
  lemma SlopeSetOnlyByOverlappedRamp(b: Body, coll: seq<Sprite>, semis: seq<Sprite>, dropActive: bool, tile: Positive)
    requires AllMotionTagged(coll) && AllMotionTagged(semis) && !b.onSlope
    ensures var r := Collision(b, coll, semis, Vertical, dropActive, tile);
      r.onSlope ==> exists s :: s in coll && IsRampKind(s.tag) && Overlaps(s.rect, b.rect) && r.rampType == Some(s.tag)
  {
    HitsMotionTagged(coll, b.rect, BasicList);
    HitsMotionTagged(coll, b.rect, RampList);
    HitsMotionTagged(semis, b.rect, SemiList);
    var semiL, basic, ramps := Hits(semis, b.rect, SemiList), Hits(coll, b.rect, BasicList), Hits(coll, b.rect, RampList);
    var s1 := SemiCollisions(b, semiL, Vertical, dropActive, tile);
    var s2 := Fold(BasicPass, Vertical, tile, s1, basic);
    SlopeComesFromRamp(tile, s2, ramps);
    var r := Fold(RampPass, Vertical, tile, s2, ramps);
    if r.onSlope {
      var i :| 0 <= i < |ramps| && r.rampType == Some(ramps[i].tag);
      assert ramps[i] in ramps;
    }
  }

  /**
   * The semi-solid pass only ever puts the player's bottom on some platform's top, and
   * zeroes the vertical speed only if the player was falling.
   */
  lemma {:induction false} SemiPassOnlyLands(tile: Positive, b: Body, ss: seq<Sprite>)
    requires AllMotionTagged(ss)
    ensures var r := Fold(SemiPass, Vertical, tile, b, ss);
      && r == b.(rect := r.rect, velY := r.velY)
      && r.rect.x == b.rect.x && r.rect.w == b.rect.w && r.rect.h == b.rect.h
      && (r.velY == b.velY || (b.velY > 0.0 && r.velY == 0.0))
      && (r.rect == b.rect || exists i | 0 <= i < |ss| :: r.rect.Bottom() == ss[i].rect.Top())
    decreases |ss|
  {
    if ss != [] {
      var init := ss[..|ss| - 1];
      SemiPassOnlyLands(tile, b, init);
      var p := Fold(SemiPass, Vertical, tile, b, init);
      var r := Fold(SemiPass, Vertical, tile, b, ss);
      assert r == SemiStep(p, ss[|ss| - 1]);
      if r.rect != b.rect && r.rect == p.rect {
        var i :| 0 <= i < |init| && p.rect.Bottom() == init[i].rect.Top();
        assert ss[i] == init[i];
      }
    }
  }

  /**
   * A semi-solid platform the player reached from above is landed on: with no terrain
   * around and no ramp-exit guard, the vertical collision puts the bottom on the
   * platform's top and stops a fall; while the drop-down timer runs it does nothing.
   */
  lemma SemiLandsFromAbove(b: Body, coll: seq<Sprite>, s: Sprite, tile: Positive)
    requires AllMotionTagged(coll) && MotionTagged(s)
    requires !(b.onSlope && b.sides.top)
    requires Overlaps(s.rect, b.rect) && FromAbove(b, s.rect)
    requires forall i | 0 <= i < |coll| :: !Overlaps(coll[i].rect, b.rect)
    ensures var r := Collision(b, coll, [s], Vertical, false, tile);
      r.rect == b.rect.WithBottom(s.rect.Top()) && r.velY == (if b.velY > 0.0 then 0.0 else b.velY)
    ensures Collision(b, coll, [s], Vertical, true, tile) == b
  {
    HitsNoneOverlap(coll, b.rect, BasicList);
    HitsNoneOverlap(coll, b.rect, RampList);
    assert [s][..0] == [];
    assert Hits([s], b.rect, SemiList) == [s];
    assert Fold(SemiPass, Vertical, tile, b, [s]) == SemiStep(b, s);
  }

  /**
   * The resolving halves of `horizontal_movement` and `vertical_movement`: the integrated
   * left edge and x speed, the horizontal collision, then the integrated bottom edge and
   * y speed with the slope flag cleared, and the vertical collision. Last frame's rectangle
   * keeps its y and size.
   */
  function MoveAndCollide(b: Body, coll: seq<Sprite>, semis: seq<Sprite>, dropActive: bool, tile: Positive,
                          newX: real, newVelX: real, newBottom: real, newVelY: real): (r: Body)
    requires AllMotionTagged(coll) && AllMotionTagged(semis)
    ensures r.oldRect.y == b.oldRect.y && r.oldRect.w == b.oldRect.w && r.oldRect.h == b.oldRect.h
  {
    var h := Collision(b.(velX := newVelX, rect := b.rect.WithLeft(newX)), coll, semis, Horizontal, dropActive, tile);
    Collision(h.(velY := newVelY, rect := h.rect.WithBottom(newBottom), onSlope := false), coll, semis, Vertical, dropActive, tile)
  }

  /** After a frame's two passes, a slope state always names the kind of a terrain ramp the player overlapped. */
  lemma MoveAndCollideSlope(b: Body, coll: seq<Sprite>, semis: seq<Sprite>, dropActive: bool, tile: Positive,
                            newX: real, newVelX: real, newBottom: real, newVelY: real)
    requires AllMotionTagged(coll) && AllMotionTagged(semis)
    ensures var r := MoveAndCollide(b, coll, semis, dropActive, tile, newX, newVelX, newBottom, newVelY);
      r.onSlope ==> exists s :: s in coll && IsRampKind(s.tag) && r.rampType == Some(s.tag)
  {
    var h := Collision(b.(velX := newVelX, rect := b.rect.WithLeft(newX)), coll, semis, Horizontal, dropActive, tile);
    SlopeSetOnlyByOverlappedRamp(h.(velY := newVelY, rect := h.rect.WithBottom(newBottom), onSlope := false),
      coll, semis, dropActive, tile);
  }

  /** A slope state the vertical ramp pass sets always names the kind of a ramp it looked at. */
  lemma {:induction false} SlopeComesFromRamp(tile: Positive, b: Body, ss: seq<Sprite>)
    requires AllMotionTagged(ss)
    ensures var r := Fold(RampPass, Vertical, tile, b, ss);
      (r.onSlope, r.rampType) != (b.onSlope, b.rampType) ==>
        r.onSlope && exists i | 0 <= i < |ss| :: r.rampType == Some(ss[i].tag)
    decreases |ss|
  {
    if ss != [] {
      var init := ss[..|ss| - 1];
      SlopeComesFromRamp(tile, b, init);
      var p := Fold(RampPass, Vertical, tile, b, init);
      var r := Fold(RampPass, Vertical, tile, b, ss);
      if (r.onSlope, r.rampType) != (b.onSlope, b.rampType) && (r.onSlope, r.rampType) == (p.onSlope, p.rampType) {
        var i :| 0 <= i < |init| && p.rampType == Some(init[i].tag);
        assert ss[i] == init[i];
      }
    }
  }

  /**
   * `on_ramp_wall` after the horizontal ramp loop is the wall test of the last ramp alone;
   * with no ramp in the list it keeps whatever value it had before.
   */
  lemma RampWallIsLastRamps(tile: Positive, b: Body, ss: seq<Sprite>)
    requires AllMotionTagged(ss)
    ensures ss == [] ==> Fold(RampPass, Horizontal, tile, b, ss).onRampWall == b.onRampWall
    ensures ss != [] ==>
      var p := Fold(RampPass, Horizontal, tile, b, ss[..|ss| - 1]);
      var s := ss[|ss| - 1];
      Fold(RampPass, Horizontal, tile, b, ss).onRampWall
        == (if s.tag == RightRamp then FromRight(p, s.rect) else FromLeft(p, s.rect))
  {
  }

  /**
   * A wall hit on an earlier ramp is forgotten when a later ramp in the list is not a wall
   * hit: the player moving left into the wall face of a right ramp at x = 0..32 while also
   * overlapping the next right ramp, at x = 32..64; the broad phase lists both.
   */
  lemma EarlierRampWallForgotten(b: Body, tile: Positive)
    requires b.rect == Rect(30.0, 0.0, 16.0, 16.0) && b.oldRect == Rect(34.0, 0.0, 16.0, 16.0)
    ensures
      var wall := Sprite(Rect(0.0, 0.0, 32.0, 32.0), RightRamp, None);
      var next := Sprite(Rect(32.0, 0.0, 32.0, 32.0), RightRamp, None);
      && Hits([wall, next], b.rect, RampList) == [wall, next]
      && RampStepH(b, wall).onRampWall
      && !Fold(RampPass, Horizontal, tile, b, [wall, next]).onRampWall
  {
    var wall := Sprite(Rect(0.0, 0.0, 32.0, 32.0), RightRamp, None);
    var next := Sprite(Rect(32.0, 0.0, 32.0, 32.0), RightRamp, None);
    var ss := [wall, next];
    assert ss[..1] == [wall] && [wall][..0] == [];
    assert Overlaps(wall.rect, b.rect) && Overlaps(next.rect, b.rect);
    assert Hits([wall], b.rect, RampList) == [wall];
    var first := RampStepH(b, wall);
    assert FromRight(b, wall.rect);
    assert first.rect == b.rect.WithLeft(32.0) && first.oldRect == b.oldRect;
    assert !FromRight(first, next.rect) && !FromLeft(first, next.rect);
    assert !RampStepH(first, next).onRampWall;
    assert Fold(RampPass, Horizontal, tile, b, []) == b;
    assert Fold(RampPass, Horizontal, tile, b, [wall]) == first;
    assert Fold(RampPass, Horizontal, tile, b, ss) == RampStepH(first, next);
  }

  /**
   * The directional test ignores a tile the player already overlapped last frame: no
   * horizontal snap if last frame's rectangle straddled neither edge from outside, and
   * likewise vertically.
   */
  lemma AlreadyInsideNoSnap(b: Body, t: Rect)
    ensures b.oldRect.Left() < t.Right() && b.oldRect.Right() > t.Left() ==> StaticStepH(b, t) == b
    ensures b.oldRect.Top() < t.Bottom() && b.oldRect.Bottom() > t.Top() ==> StaticStepV(b, t) == b
  {
  }

  /**
   * A tile whose right edge is at 90: a player 16 wide moving from left = 100 to left = 85
   * is snapped back to left = 90 and stopped; had it been at 85 already, nothing happens.
   */
  lemma EdgeCrossingExample()
    ensures
      var tile := Rect(58.0, 0.0, 32.0, 32.0);
      var moved := Body(Rect(85.0, 0.0, 16.0, 16.0), Rect(100.0, 0.0, 16.0, 16.0), -15.0, 0.0,
                        false, false, false, None, Sides(false, false, false, false));
      var stayed := moved.(oldRect := Rect(85.0, 0.0, 16.0, 16.0));
      && StaticStepH(moved, tile).rect.Left() == 90.0
      && StaticStepH(moved, tile).velX == 0.0
      && StaticStepH(stayed, tile) == stayed
  {
  }
}
