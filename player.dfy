/**
 * The player sprite: the fields the collision core updates in place, and its methods,
 * each proved to leave the fields as the corresponding function of the other modules says.
 */
module PlayerModel {
  import opened Geometry
  import opened World
  import opened Ramp
  import opened Broadphase
  import opened Contact
  import opened Resolve
  import opened Controller

  class Player {
    const settings: Settings
    /** The two sprite groups the player collides with; the core only reads them. */
    const collisionSprites: TaggedSprites
    const semiSprites: TaggedSprites

    var rect: Rect
    var oldRect: Rect
    var velX: real
    var velY: real
    var isJumping: bool
    var onRampWall: bool
    /** `on_ramp_slope["on"]` and `on_ramp_slope["ramp_type"]`. */
    var onSlope: bool
    var rampType: Option<Tag>
    /** `collision_side`. */
    var sides: Sides
    var listBasic: seq<Sprite>
    var listRamps: seq<Sprite>
    var listSemi: seq<Sprite>
    var platformMoving: Option<Sprite>
    var leftKey: bool
    var rightKey: bool
    /** Whether the timers `wall_jump_move_block` and `unlock_semi_drop_down` are active. */
    var wallJumpLock: bool
    var dropDown: bool

    function State(): Body
      reads this`rect, this`oldRect, this`velX, this`velY, this`isJumping, this`onRampWall, this`onSlope,
        this`rampType, this`sides
    {
      Body(rect, oldRect, velX, velY, isJumping, onRampWall, onSlope, rampType, sides)
    }

    function Latched(): Latches
      reads this`leftKey, this`rightKey, this`wallJumpLock, this`dropDown
    {
      Latches(leftKey, rightKey, wallJumpLock, dropDown)
    }

    function Whole(): Actor
      reads this`rect, this`oldRect, this`velX, this`velY, this`isJumping, this`onRampWall, this`onSlope,
        this`rampType, this`sides, this`leftKey, this`rightKey, this`wallJumpLock, this`dropDown
    {
      Actor(State(), Latched())
    }

    /** A player of the given size with its top-left corner at (x, y), at rest, touching nothing. */
    constructor (x: real, y: real, w: real, h: real, coll: seq<Sprite>, semis: seq<Sprite>, st: Settings)
      requires AllMotionTagged(coll) && AllMotionTagged(semis)
      ensures settings == st && collisionSprites == coll && semiSprites == semis
      ensures rect == Rect(x, y, w, h) && oldRect == rect && velX == 0.0 && velY == 0.0
      ensures !isJumping && !onRampWall && !onSlope && rampType == None
      ensures sides == Sides(false, false, false, false)
      ensures listBasic == [] && listRamps == [] && listSemi == [] && platformMoving == None
      ensures Latched() == Latches(false, false, false, false)
    {
      settings := st;
      collisionSprites, semiSprites := coll, semis;
      rect := Rect(x, y, w, h);
      oldRect := Rect(x, y, w, h);
      velX, velY := 0.0, 0.0;
      isJumping, onRampWall, onSlope, rampType := false, false, false, None;
      sides := Sides(false, false, false, false);
      listBasic, listRamps, listSemi := [], [], [];
      platformMoving := None;
      leftKey, rightKey := false, false;
      wallJumpLock, dropDown := false, false;
    }

    /** `fill_collide_lists(tar_rect, [collision_sprites, semi_collision_sprites])`. */
    method FillCollideLists(tar: Rect)
      modifies this`listBasic, this`listRamps, this`listSemi
      ensures listBasic == Hits(collisionSprites, tar, BasicList)
      ensures listRamps == Hits(collisionSprites, tar, RampList)
      ensures listSemi == Hits(semiSprites, tar, SemiList)
      ensures AllMotionTagged(listSemi) && AllMotionTagged(listBasic) && AllMotionTagged(listRamps)
      ensures leftKey == old(leftKey) && rightKey == old(rightKey) && wallJumpLock == old(wallJumpLock) && dropDown == old(dropDown)
    {
      CollectTerrain(tar);
      CollectSemi(tar);
      HitsMotionTagged(collisionSprites, tar, BasicList);
      HitsMotionTagged(collisionSprites, tar, RampList);
      HitsMotionTagged(semiSprites, tar, SemiList);
    }

    /** The terrain half of `fill_collide_lists`: both terrain lists reset, then filled from the terrain group. */
    method CollectTerrain(tar: Rect)
      modifies this`listBasic, this`listRamps
      ensures listBasic == Hits(collisionSprites, tar, BasicList)
      ensures listRamps == Hits(collisionSprites, tar, RampList)
    {
      listBasic, listRamps := [], [];
      var i := 0;
      while i < |collisionSprites|
        invariant 0 <= i <= |collisionSprites|
        invariant listBasic == Hits(collisionSprites[..i], tar, BasicList)
        invariant listRamps == Hits(collisionSprites[..i], tar, RampList)
      {
        var sprite := collisionSprites[i];
        assert collisionSprites[..i + 1] == collisionSprites[..i] + [sprite];
        HitsSnoc(collisionSprites[..i], sprite, tar, BasicList);
        HitsSnoc(collisionSprites[..i], sprite, tar, RampList);
        if Overlaps(sprite.rect, tar) {
          if IsBasicKind(sprite.tag) {
            listBasic := listBasic + [sprite];
          } else if IsRampKind(sprite.tag) {
            listRamps := listRamps + [sprite];
          }
        }
        i := i + 1;
      }
      assert collisionSprites[..i] == collisionSprites;
    }

    /** The semi-solid half of `fill_collide_lists`: the list reset, then every overlapping platform. */
    method CollectSemi(tar: Rect)
      modifies this`listSemi
      ensures listSemi == Hits(semiSprites, tar, SemiList)
    {
      listSemi := [];
      var j := 0;
      while j < |semiSprites|
        invariant 0 <= j <= |semiSprites|
        invariant listSemi == Hits(semiSprites[..j], tar, SemiList)
      {
        var sprite := semiSprites[j];
        assert semiSprites[..j + 1] == semiSprites[..j] + [sprite];
        HitsSnoc(semiSprites[..j], sprite, tar, SemiList);
        if Overlaps(sprite.rect, tar) {
          listSemi := listSemi + [sprite];
        }
        j := j + 1;
      }
      assert semiSprites[..j] == semiSprites;
    }

    /** `check_contact`: the four flags from scratch, then the carrier under the bottom probe. */
    method CheckContact()
      modifies this`sides, this`platformMoving
      ensures sides == SenseContact(rect, velY, collisionSprites, semiSprites, settings.tileSize)
      ensures platformMoving == LastCarrier(collisionSprites + semiSprites, BotProbe(rect))
    {
      var topRect, botRect := TopProbe(rect), BotProbe(rect);
      var leftRect, rightRect := LeftProbe(rect), RightProbe(rect);
      var currTop := SolidTouch(topRect, collisionSprites);
      var currBot := SolidTouch(botRect, collisionSprites);
      var currLeft := SolidTouch(leftRect, collisionSprites);
      var currRight := SolidTouch(rightRect, collisionSprites);
      var onSemi := SemiFloor(botRect);
      currBot := currBot || onSemi;
      var fromRamps := RampContacts(Sides(currTop, currBot, currLeft, currRight));
      sides := fromRamps;
      platformMoving := FindCarrier(botRect);
    }

    /** The semi-solid loop of `check_contact`: it stops at the first platform that supports the probe. */
    method SemiFloor(botRect: Rect) returns (found: bool)
      ensures found == SemiTouch(botRect, velY, semiSprites)
    {
      found := false;
      var i := 0;
      while i < |semiSprites|
        invariant 0 <= i <= |semiSprites|
        invariant !found
        invariant forall j | 0 <= j < i :: !SemiSupports(botRect, velY, semiSprites[j])
      {
        var spr := semiSprites[i];
        if velY >= 0.0 && Overlaps(botRect, spr.rect) && botRect.Top() <= spr.rect.Top() {
          // falling, overlapping, and the probe's top at or above the platform's top
          found := true;
          break;
        }
        i := i + 1;
      }
    }

    /** The ramp loop of `check_contact`, raising the flags in `curr` that the ramps add. */
    method RampContacts(curr: Sides) returns (t: Sides)
      ensures t == Union(curr, RampFlags(rect, collisionSprites, settings.tileSize))
    {
      t := curr;
      var k := 0;
      while k < |collisionSprites|
        invariant 0 <= k <= |collisionSprites|
        invariant t.top == (curr.top || RampTop(rect, collisionSprites[..k], settings.tileSize))
        invariant t.bot == (curr.bot || RampBot(rect, collisionSprites[..k], settings.tileSize))
        invariant t.left == (curr.left || RampLeft(rect, collisionSprites[..k], settings.tileSize))
        invariant t.right == (curr.right || RampRight(rect, collisionSprites[..k], settings.tileSize))
      {
        var spr := collisionSprites[k];
        assert collisionSprites[..k + 1] == collisionSprites[..k] + [spr];
        RampFlagsSnoc(rect, collisionSprites[..k], spr, settings.tileSize);
        if IsRampKind(spr.tag) {
          t := RampContact(spr, t);
        }
        k := k + 1;
      }
      assert collisionSprites[..k] == collisionSprites;
    }

    /** One ramp of that loop: top, else standing on the slope, else the wall face of its kind. */
    method RampContact(spr: Sprite, curr: Sides) returns (t: Sides)
      ensures t == Union(curr, RampTouch(rect, spr, settings.tileSize))
    {
      var topRect, botRect := TopProbe(rect), BotProbe(rect);
      var leftRect, rightRect := LeftProbe(rect), RightProbe(rect);
      t := curr;
      if Overlaps(topRect, spr.rect) {
        t := t.(top := true);
      } else if Overlaps(botRect, spr.rect) && CollisionRamp(botRect, rect.w, spr, settings.tileSize).collides {
        t := t.(bot := true);
      } else {
        if spr.tag == RightRamp {
          // the right wall of a right ramp
          if Overlaps(leftRect, spr.rect) && leftRect.Right() >= spr.rect.Right() {
            t := t.(left := true);
          }
        } else {
          // the left wall of a left ramp; the sloped edge is ignored
          if Overlaps(rightRect, spr.rect) && rightRect.Left() <= spr.rect.Left() {
            t := t.(right := true);
          }
        }
      }
    }

    /** The moving-platform loop of `check_contact`: it does not break, so the last candidate wins. */
    method FindCarrier(botRect: Rect) returns (p: Option<Sprite>)
      ensures p == LastCarrier(collisionSprites + semiSprites, botRect)
    {
      p := None;
      var ps := collisionSprites + semiSprites;
      var m := 0;
      while m < |ps|
        invariant 0 <= m <= |ps|
        invariant p == LastCarrier(ps[..m], botRect)
      {
        assert ps[..m + 1][..m] == ps[..m];
        var sprite := ps[m];
        if sprite.motion.Some? && Overlaps(botRect, sprite.rect) {
          p := Some(sprite);
        }
        m := m + 1;
      }
      assert ps[..m] == ps;
    }

    /** One semi-solid platform on the vertical axis. */
    method ResolveSemi(sprite: Sprite)
      requires MotionTagged(sprite)
      modifies this`rect, this`velY
      ensures State() == SemiStep(old(State()), sprite)
    {
      if sprite.tag == MovingObject {
        var m := sprite.motion.value;
        if m.plane == PlaneY {
          if sprite.rect.Top() <= rect.Bottom() && m.oldRect.Top() + m.speed >= rect.Bottom() {
            // a platform moving up meets the player's feet
            if velY > 0.0 {
              velY := 0.0;
            }
            rect := rect.WithBottom(sprite.rect.Top());
          }
        }
      }
      if rect.Bottom() >= sprite.rect.Top() && oldRect.Bottom() <= sprite.rect.Top() {
        // landing from above
        if velY > 0.0 {
          velY := 0.0;
        }
        rect := rect.WithBottom(sprite.rect.Top());
      }
    }

    /** `semi_collisions(axis)`. */
    method SemiCollisions(axis: Axis)
      requires AllMotionTagged(listSemi)
      modifies this`rect, this`velY
      ensures State() == Resolve.SemiCollisions(old(State()), listSemi, axis, dropDown, settings.tileSize)
      ensures leftKey == old(leftKey) && rightKey == old(rightKey) && wallJumpLock == old(wallJumpLock) && dropDown == old(dropDown)
    {
      if !dropDown {
        var i := 0;
        while i < |listSemi|
          invariant 0 <= i <= |listSemi|
          invariant State() == Fold(SemiPass, axis, settings.tileSize, old(State()), listSemi[..i])
        {
          assert listSemi[..i + 1][..i] == listSemi[..i];
          if axis == Vertical {
            ResolveSemi(listSemi[i]);
          }
          i := i + 1;
        }
        assert listSemi[..i] == listSemi;
      }
    }

    /** One basic or moving tile, on either axis: the moving-platform rule, then the static rule. */
    method ResolveBasic(sprite: Sprite, axis: Axis)
      requires MotionTagged(sprite)
      modifies this`rect, this`velX, this`velY, this`isJumping
      ensures State() == Step(BasicPass, axis, settings.tileSize, old(State()), sprite)
    {
      if axis == Horizontal {
        if sprite.tag == MovingObject && sprite.motion.value.plane == PlaneX {
          PushedSideways(sprite, sprite.motion.value);
        }
        SnapHorizontal(sprite.rect);
      } else {
        if sprite.tag == MovingObject && sprite.motion.value.plane == PlaneY {
          PushedVertically(sprite, sprite.motion.value);
        }
        SnapVertical(sprite.rect);
      }
    }

    /** A tile moving along x pushes the player out by its edge. */
    method PushedSideways(sprite: Sprite, m: Motion)
      requires sprite.tag == MovingObject && sprite.motion == Some(m) && m.plane == PlaneX
      modifies this`rect
      ensures State() == MovingStepH(old(State()), sprite)
    {
      if sprite.rect.Right() >= rect.Left() && m.oldRect.Right() - m.speed <= rect.Left() {
        rect := rect.WithLeft(sprite.rect.Right());
      } else if sprite.rect.Left() <= rect.Right() && m.oldRect.Left() + m.speed >= rect.Right() {
        rect := rect.WithRight(sprite.rect.Left());
      }
    }

    /** A tile moving along y lifts the player or comes down on its head. */
    method PushedVertically(sprite: Sprite, m: Motion)
      requires sprite.tag == MovingObject && sprite.motion == Some(m) && m.plane == PlaneY
      modifies this`rect, this`velY, this`isJumping
      ensures State() == MovingStepV(old(State()), sprite)
    {
      if sprite.rect.Top() <= rect.Bottom() && m.oldRect.Top() + m.speed >= rect.Bottom() {
        velY := 0.0;
        rect := rect.WithBottom(sprite.rect.Top());
      } else if sprite.rect.Bottom() >= rect.Top() && m.oldRect.Bottom() - m.speed <= rect.Top() {
        if isJumping {
          velY := velY * 0.25;
          isJumping := false;
        }
        rect := rect.WithTop(sprite.rect.Bottom());
      }
    }

    /** The directional horizontal snap against a tile's rectangle. */
    method SnapHorizontal(t: Rect)
      modifies this`rect, this`velX
      ensures State() == StaticStepH(old(State()), t)
    {
      if rect.Left() <= t.Right() && oldRect.Left() >= t.Right() {
        // approaching from the right
        if !onSlope {
          velX := 0.0;
        }
        rect := rect.WithLeft(t.Right());
      } else if rect.Right() >= t.Left() && oldRect.Right() <= t.Left() {
        // approaching from the left
        if !onSlope {
          velX := 0.0;
        }
        rect := rect.WithRight(t.Left());
      }
    }

    /** The directional vertical snap against a tile's rectangle. */
    method SnapVertical(t: Rect)
      modifies this`rect, this`velY, this`isJumping
      ensures State() == StaticStepV(old(State()), t)
    {
      if rect.Bottom() >= t.Top() && oldRect.Bottom() <= t.Top() {
        // landing from above
        velY := 0.0;
        rect := rect.WithBottom(t.Top());
      } else if rect.Top() <= t.Bottom() && oldRect.Top() >= t.Bottom() {
        // hitting the tile from below
        if isJumping {
          velY := velY * 0.25;
          isJumping := false;
        }
        rect := rect.WithTop(t.Bottom());
      }
    }

    /** One ramp tile, on either axis. */
    method ResolveRamp(sprite: Sprite, axis: Axis)
      requires MotionTagged(sprite)
      modifies this`rect, this`velX, this`velY, this`isJumping, this`onRampWall, this`onSlope, this`rampType
      ensures State() == Step(RampPass, axis, settings.tileSize, old(State()), sprite)
    {
      if axis == Horizontal {
        RampSideways(sprite);
      } else {
        RampVertically(sprite);
      }
    }

    /** A ramp on the horizontal axis: its wall face blocks and is remembered, its low end blocks from below. */
    method RampSideways(sprite: Sprite)
      modifies this`rect, this`velX, this`onRampWall
      ensures State() == RampStepH(old(State()), sprite)
    {
      var t := sprite.rect;
      onRampWall := false;
      if sprite.tag == RightRamp {
        if rect.Left() <= t.Right() && oldRect.Left() >= t.Right() {
          // the wall of a right ramp, approached from the right
          onRampWall := true;
          velX := 0.0;
          rect := rect.WithLeft(t.Right());
        } else if rect.Right() >= t.Left() && oldRect.Right() <= t.Left() && rect.Bottom() > t.Bottom() {
          // the low end of the slope only blocks a player below the ramp
          rect := rect.WithRight(t.Left());
        }
      } else {
        if rect.Right() >= t.Left() && oldRect.Right() <= t.Left() {
          // the wall of a left ramp, approached from the left
          onRampWall := true;
          velX := 0.0;
          rect := rect.WithRight(t.Left());
        } else if rect.Left() <= t.Right() && oldRect.Left() >= t.Right() && rect.Bottom() > t.Bottom() {
          rect := rect.WithLeft(t.Right());
        }
      }
    }

    /** A ramp on the vertical axis: its flat bottom is a ceiling, its slope a floor unless a wall was hit. */
    method RampVertically(sprite: Sprite)
      modifies this`rect, this`velY, this`isJumping, this`onSlope, this`rampType
      ensures State() == RampStepV(old(State()), sprite, settings.tileSize)
    {
      var t := sprite.rect;
      if rect.Top() <= t.Bottom() && oldRect.Top() >= t.Bottom() {
        // the flat bottom of the ramp, approached from below
        if isJumping {
          velY := velY * 0.25;
          isJumping := false;
        }
        rect := rect.WithTop(t.Bottom());
      } else if !onRampWall {
        var res := CollisionRamp(rect, rect.w, sprite, settings.tileSize);
        if res.collides {
          onSlope := true;
          rampType := Some(sprite.tag);
          velY := 0.0;
          rect := rect.WithBottom(res.floorY);
        }
      }
    }

    /** `collision(axis)`: the ramp-exit guard, the broad phase, then the three resolution loops. */
    method Collision(axis: Axis)
      modifies this`rect, this`oldRect, this`velX, this`velY, this`isJumping, this`onRampWall,
        this`onSlope, this`rampType, this`sides, this`listBasic, this`listRamps, this`listSemi
      ensures State() == Resolve.Collision(old(State()), collisionSprites, semiSprites, axis, dropDown, settings.tileSize)
      ensures leftKey == old(leftKey) && rightKey == old(rightKey) && wallJumpLock == old(wallJumpLock) && dropDown == old(dropDown)
    {
      ExitRampGuard();
      FillCollideLists(rect);
      ResolveLists(axis);
    }

    /** The three resolution loops of `collision`, over the lists the broad phase just built. */
    method ResolveLists(axis: Axis)
      requires AllMotionTagged(listSemi) && AllMotionTagged(listBasic) && AllMotionTagged(listRamps)
      modifies this`rect, this`velX, this`velY, this`isJumping, this`onRampWall, this`onSlope, this`rampType
      ensures State() == Fold(RampPass, axis, settings.tileSize,
        Fold(BasicPass, axis, settings.tileSize,
          Resolve.SemiCollisions(old(State()), listSemi, axis, dropDown, settings.tileSize), listBasic), listRamps)
      ensures leftKey == old(leftKey) && rightKey == old(rightKey) && wallJumpLock == old(wallJumpLock) && dropDown == old(dropDown)
    {
      SemiCollisions(axis);
      BasicLoop(axis);
      RampLoop(axis);
    }

    /** The opening branch of `collision`: on a slope with a tile just above. */
    method ExitRampGuard()
      modifies this`rect, this`oldRect, this`velX, this`velY, this`isJumping, this`sides
      ensures State() == RampExitGuard(old(State()))
      ensures leftKey == old(leftKey) && rightKey == old(rightKey) && wallJumpLock == old(wallJumpLock) && dropDown == old(dropDown)
    {
      if onSlope && sides.top {
        sides := sides.(top := false);
        if isJumping {
          velY := velY * 0.25;
          isJumping := false;
        }
        velX := 0.0;
        // back to last frame's position, one unit away from the rising side
        var offset := 1.0;
        if rampType == Some(RightRamp) {
          offset := -1.0;
        }
        var temp := oldRect.Left() + offset;
        rect := rect.WithLeft(oldRect.Left() + offset);
        oldRect := oldRect.WithLeft(temp);
      }
    }

    /** The loop of `collision` over `list_collide_basic`. */
    method BasicLoop(axis: Axis)
      requires AllMotionTagged(listBasic)
      modifies this`rect, this`velX, this`velY, this`isJumping
      ensures State() == Fold(BasicPass, axis, settings.tileSize, old(State()), listBasic)
      ensures leftKey == old(leftKey) && rightKey == old(rightKey) && wallJumpLock == old(wallJumpLock) && dropDown == old(dropDown)
    {
      var i := 0;
      while i < |listBasic|
        invariant 0 <= i <= |listBasic|
        invariant State() == Fold(BasicPass, axis, settings.tileSize, old(State()), listBasic[..i])
      {
        assert listBasic[..i + 1][..i] == listBasic[..i];
        ResolveBasic(listBasic[i], axis);
        i := i + 1;
      }
      assert listBasic[..i] == listBasic;
    }

    /** The loop of `collision` over `list_collide_ramps`. */
    method RampLoop(axis: Axis)
      requires AllMotionTagged(listRamps)
      modifies this`rect, this`velX, this`velY, this`isJumping, this`onRampWall, this`onSlope, this`rampType
      ensures State() == Fold(RampPass, axis, settings.tileSize, old(State()), listRamps)
      ensures leftKey == old(leftKey) && rightKey == old(rightKey) && wallJumpLock == old(wallJumpLock) && dropDown == old(dropDown)
    {
      var k := 0;
      while k < |listRamps|
        invariant 0 <= k <= |listRamps|
        invariant State() == Fold(RampPass, axis, settings.tileSize, old(State()), listRamps[..k])
      {
        assert listRamps[..k + 1][..k] == listRamps[..k];
        ResolveRamp(listRamps[k], axis);
        k := k + 1;
      }
      assert listRamps[..k] == listRamps;
    }

    /** `jump`. */
    method Jump()
      modifies this`velX, this`velY, this`isJumping, this`wallJumpLock, this`leftKey, this`rightKey
      ensures Whole() == Controller.Jump(old(Whole()), settings)
    {
      if sides.bot && !sides.top && !isJumping {
        isJumping := true;
        velY := velY - settings.jumpVelocity;
      } else if !sides.bot && (sides.left || sides.right) && !isJumping && !wallJumpLock {
        isJumping := true;
        velY := velY - settings.jumpVelocity * 0.7;
        // away from the wall
        velX := if sides.left then settings.maxVelX else -(settings.maxVelX as real);
        wallJumpLock := true;
        leftKey := false;
        rightKey := false;
      }
    }

    /** The key handling of `player_input`, with the keys held this frame as booleans. */
    method PlayerInput(keys: Keys)
      modifies this`velX, this`velY, this`isJumping, this`wallJumpLock, this`leftKey, this`rightKey, this`dropDown
      ensures Whole() == Controller.PlayerInput(old(Whole()), keys, settings)
    {
      if keys.jump {
        Jump();
      }
      PressKeys(keys);
      ReleaseKeys(keys);
    }

    /** The keys held: a and d latch unless the lock runs, s holds the drop-down latch. */
    method PressKeys(keys: Keys)
      modifies this`leftKey, this`rightKey, this`dropDown
      ensures Whole() == Controller.PressKeys(old(Whole()), keys)
    {
      if !wallJumpLock {
        if keys.left {
          leftKey := true;
        }
        if keys.right {
          rightKey := true;
        }
      }
      if keys.down {
        dropDown := true;
      }
    }

    /** The keys released: space cuts a running jump, a and d drop their latches. */
    method ReleaseKeys(keys: Keys)
      modifies this`velY, this`isJumping, this`leftKey, this`rightKey
      ensures Whole() == Controller.ReleaseKeys(old(Whole()), keys)
    {
      if !keys.jump {
        if isJumping {
          velY := velY * 0.25;
          isJumping := false;
        }
      }
      if !keys.left {
        leftKey := false;
      }
      if !keys.right {
        rightKey := false;
      }
    }

    /** `platform_move(dt)`. */
    method PlatformMove(dt: real)
      requires platformMoving.Some? ==> platformMoving.value.motion.Some?
      modifies this`rect
      ensures rect == Contact.PlatformMove(old(rect), sides, platformMoving, dt)
    {
      if platformMoving.Some? {
        var p := platformMoving.value;
        var m := p.motion.value;
        if sides.bot || m.fullCollision {
          rect := rect.Shifted(m.dx * m.speed * dt, m.dy * m.speed * dt);
        }
      }
    }

    /** `update_timers`, given for each timer whether its duration is over. */
    method UpdateTimers(lockOver: bool, dropOver: bool)
      modifies this`wallJumpLock, this`dropDown
      ensures Latched() == ExpireTimers(old(Latched()), lockOver, dropOver)
    {
      if wallJumpLock && lockOver {
        wallJumpLock := false;
      }
      if dropDown && dropOver {
        dropDown := false;
      }
    }

    /**
     * The resolving half of `horizontal_movement`: the integrator's new left edge and speed
     * (parameters here), then the horizontal collision pass.
     */
    method HorizontalMovement(newX: real, newVelX: real)
      modifies this`rect, this`oldRect, this`velX, this`velY, this`isJumping, this`onRampWall,
        this`onSlope, this`rampType, this`sides, this`listBasic, this`listRamps, this`listSemi
      ensures State() == Resolve.Collision(old(State()).(velX := newVelX, rect := old(rect).WithLeft(newX)),
        collisionSprites, semiSprites, Horizontal, dropDown, settings.tileSize)
      ensures oldRect.y == old(oldRect).y && oldRect.w == old(oldRect).w && oldRect.h == old(oldRect).h
      ensures leftKey == old(leftKey) && rightKey == old(rightKey) && wallJumpLock == old(wallJumpLock) && dropDown == old(dropDown)
    {
      velX := newVelX;
      rect := rect.WithLeft(newX);
      Collision(Horizontal);
    }

    /**
     * The resolving half of `vertical_movement`: the new bottom edge and speed, the slope
     * flag cleared, then the vertical collision pass.
     */
    method VerticalMovement(newBottom: real, newVelY: real)
      modifies this`rect, this`oldRect, this`velX, this`velY, this`isJumping, this`onRampWall,
        this`onSlope, this`rampType, this`sides, this`listBasic, this`listRamps, this`listSemi
      ensures State() == Resolve.Collision(old(State()).(velY := newVelY, rect := old(rect).WithBottom(newBottom), onSlope := false),
        collisionSprites, semiSprites, Vertical, dropDown, settings.tileSize)
      ensures oldRect == old(oldRect)
      ensures leftKey == old(leftKey) && rightKey == old(rightKey) && wallJumpLock == old(wallJumpLock) && dropDown == old(dropDown)
      ensures onSlope ==> exists s :: s in collisionSprites && IsRampKind(s.tag) && rampType == Some(s.tag)
    {
      velY := newVelY;
      rect := rect.WithBottom(newBottom);
      onSlope := false;
      ghost var before := State();
      assert before == old(State()).(velY := newVelY, rect := old(rect).WithBottom(newBottom), onSlope := false);
      Collision(Vertical);
      SlopeSetOnlyByOverlappedRamp(before, collisionSprites, semiSprites, dropDown, settings.tileSize);
    }

    /**
     * `update(dt)`, one frame, in the source's order. The integrator's results (the new
     * left edge and horizontal speed, then the new bottom edge and vertical speed) are
     * parameters. `sensedAt` is the rectangle the contact flags were computed on, before
     * the carrier moved the player.
     */
    method Update(keys: Keys, lockOver: bool, dropOver: bool, newX: real, newVelX: real,
                  newBottom: real, newVelY: real, dt: real)
      returns (ghost sensedAt: Rect)
      modifies this`rect, this`oldRect, this`velX, this`velY, this`isJumping, this`onRampWall,
        this`onSlope, this`rampType, this`sides, this`listBasic, this`listRamps, this`listSemi,
        this`platformMoving, this`leftKey, this`rightKey, this`wallJumpLock, this`dropDown
      ensures
        var a := StartFrame(old(Whole()), keys, lockOver, dropOver, settings);
        var m := MoveAndCollide(a.body, collisionSprites, semiSprites, a.latches.dropDown, settings.tileSize,
          newX, newVelX, newBottom, newVelY);
        && Latched() == a.latches
        && sensedAt == m.rect
        && State() == m.(rect := rect, sides := sides)
      ensures sides == SenseContact(sensedAt, velY, collisionSprites, semiSprites, settings.tileSize)
      ensures platformMoving == LastCarrier(collisionSprites + semiSprites, BotProbe(sensedAt))
      ensures rect == Contact.PlatformMove(sensedAt, sides, platformMoving, dt)
    {
      BeginFrame(keys, lockOver, dropOver);
      ghost var a := Whole();
      assert a.body == State() && a.latches == Latched();
      sensedAt := MoveAndSense(newX, newVelX, newBottom, newVelY, dt);
      assert Latched() == a.latches;
    }

    /** The rest of `update` after the input: both axes, then `check_contact` and `platform_move`. */
    method MoveAndSense(newX: real, newVelX: real, newBottom: real, newVelY: real, dt: real)
      returns (ghost sensedAt: Rect)
      modifies this`rect, this`oldRect, this`velX, this`velY, this`isJumping, this`onRampWall,
        this`onSlope, this`rampType, this`sides, this`listBasic, this`listRamps, this`listSemi,
        this`platformMoving
      ensures
        var m := MoveAndCollide(old(State()), collisionSprites, semiSprites, dropDown, settings.tileSize,
          newX, newVelX, newBottom, newVelY);
        sensedAt == m.rect && State() == m.(rect := rect, sides := sides)
      ensures sides == SenseContact(sensedAt, velY, collisionSprites, semiSprites, settings.tileSize)
      ensures platformMoving == LastCarrier(collisionSprites + semiSprites, BotProbe(sensedAt))
      ensures rect == Contact.PlatformMove(sensedAt, sides, platformMoving, dt)
      ensures leftKey == old(leftKey) && rightKey == old(rightKey) && wallJumpLock == old(wallJumpLock) && dropDown == old(dropDown)
    {
      Movement(newX, newVelX, newBottom, newVelY);
      ghost var m := State();
      sensedAt := SenseAndCarry(dt);
      assert State() == m.(rect := rect, sides := sides);
    }

    /** The end of `update`: `check_contact`, then `platform_move`. */
    method SenseAndCarry(dt: real) returns (ghost sensedAt: Rect)
      modifies this`sides, this`platformMoving, this`rect
      ensures sensedAt == old(rect)
      ensures sides == SenseContact(sensedAt, velY, collisionSprites, semiSprites, settings.tileSize)
      ensures platformMoving == LastCarrier(collisionSprites + semiSprites, BotProbe(sensedAt))
      ensures rect == Contact.PlatformMove(sensedAt, sides, platformMoving, dt)
      ensures State() == old(State()).(rect := rect, sides := sides)
    {
      CheckContact();
      sensedAt := rect;
      PlatformMove(dt);
    }

    /** The start of `update`: remember the rectangle, run the timers, read the keys. */
    method BeginFrame(keys: Keys, lockOver: bool, dropOver: bool)
      modifies this`oldRect, this`velX, this`velY, this`isJumping, this`wallJumpLock, this`leftKey,
        this`rightKey, this`dropDown
      ensures oldRect == old(rect)
      ensures Whole() == StartFrame(old(Whole()), keys, lockOver, dropOver, settings)
    {
      oldRect := rect;
      UpdateTimers(lockOver, dropOver);
      PlayerInput(keys);
    }

    /** `horizontal_movement` then `vertical_movement`. */
    method Movement(newX: real, newVelX: real, newBottom: real, newVelY: real)
      modifies this`rect, this`oldRect, this`velX, this`velY, this`isJumping, this`onRampWall,
        this`onSlope, this`rampType, this`sides, this`listBasic, this`listRamps, this`listSemi
      ensures State() == MoveAndCollide(old(State()), collisionSprites, semiSprites, dropDown, settings.tileSize,
        newX, newVelX, newBottom, newVelY)
      ensures leftKey == old(leftKey) && rightKey == old(rightKey) && wallJumpLock == old(wallJumpLock) && dropDown == old(dropDown)
    {
      HorizontalMovement(newX, newVelX);
      VerticalMovement(newBottom, newVelY);
    }
  }
}
