/**
 * Contact sensing (`check_contact`): four one-unit probes around the player decide the
 * top/bottom/left/right contact flags from scratch, and the moving platform under the
 * bottom probe becomes the carrier; `platform_move` then applies the carrier's motion.
 */
module Contact {
  import opened Geometry
  import opened World
  import opened Ramp

  /** The `collision_side` flags. */
  datatype Sides = Sides(top: bool, bot: bool, left: bool, right: bool)

  /** A strip one unit high just above the player. */
  function TopProbe(r: Rect): (p: Rect)
    ensures p.Bottom() == r.Top() && p.x == r.x && p.w == r.w && p.h == 1.0
  {
    Rect(r.x, r.y - 1.0, r.w, 1.0)
  }

  /** A strip one unit high just below the player. */
  function BotProbe(r: Rect): (p: Rect)
    ensures p.Top() == r.Bottom() && p.x == r.x && p.w == r.w && p.h == 1.0
  {
    Rect(r.x, r.Bottom(), r.w, 1.0)
  }

  /** A strip one unit wide left of the player, covering the middle half of its height. */
  function LeftProbe(r: Rect): (p: Rect)
    ensures p.Right() == r.Left() && p.w == 1.0 && p.Top() == r.Top() + r.h / 4.0 && p.h == r.h / 2.0
  {
    Rect(r.x - 1.0, r.y + r.h / 4.0, 1.0, r.h / 2.0)
  }

  /** A strip one unit wide right of the player, covering the middle half of its height. */
  function RightProbe(r: Rect): (p: Rect)
    ensures p.Left() == r.Right() && p.w == 1.0 && p.Top() == r.Top() + r.h / 4.0 && p.h == r.h / 2.0
  {
    Rect(r.Right(), r.y + r.h / 4.0, 1.0, r.h / 2.0)
  }

  /** `probe.collidelist(collide_rects) >= 0` over the basic and moving tiles. */
  predicate SolidTouch(probe: Rect, coll: seq<Sprite>) {
    exists i | 0 <= i < |coll| :: IsBasicKind(coll[i].tag) && Overlaps(probe, coll[i].rect)
  }

  /**
   * A semi-solid platform supports the bottom probe only while the player is not rising,
   * the probe overlaps it, and the probe's top is at or above the platform's top.
   */
  predicate SemiSupports(bot: Rect, velY: real, s: Sprite) {
    velY >= 0.0 && Overlaps(bot, s.rect) && bot.Top() <= s.rect.Top()
  }

  /**
   * The flags one ramp tile raises: top if the top probe overlaps it; otherwise bottom if
   * the bottom probe overlaps it and stands on its surface; otherwise a side, but only
   * through the vertical wall face: the right face of a right ramp, the left face of a
   * left ramp.
   */
  function RampTouch(r: Rect, s: Sprite, tile: Positive): (t: Sides)
    ensures t.top <==> Overlaps(TopProbe(r), s.rect)
    ensures t.bot <==> !t.top && Overlaps(BotProbe(r), s.rect) && CollisionRamp(BotProbe(r), r.w, s, tile).collides
    ensures t.left <==> !t.top && !t.bot && s.tag == RightRamp && Overlaps(LeftProbe(r), s.rect) && r.Left() >= s.rect.Right()
    ensures t.right <==> !t.top && !t.bot && s.tag != RightRamp && Overlaps(RightProbe(r), s.rect) && r.Right() <= s.rect.Left()
    ensures !(t.left && t.right)
    ensures t.left && s.rect.w > 0.0 ==> s.rect.Right() <= r.Left() < s.rect.Right() + 1.0
    ensures t.right && s.rect.w > 0.0 ==> s.rect.Left() - 1.0 < r.Right() <= s.rect.Left()
  {
    var top := Overlaps(TopProbe(r), s.rect);
    var bot := !top && Overlaps(BotProbe(r), s.rect) && CollisionRamp(BotProbe(r), r.w, s, tile).collides;
    var side := !top && !bot;
    Sides(
      top,
      bot,
      side && s.tag == RightRamp && Overlaps(LeftProbe(r), s.rect) && LeftProbe(r).Right() >= s.rect.Right(),
      side && s.tag != RightRamp && Overlaps(RightProbe(r), s.rect) && RightProbe(r).Left() <= s.rect.Left())
  }

  predicate RampTop(r: Rect, coll: seq<Sprite>, tile: Positive) {
    exists i | 0 <= i < |coll| :: IsRampKind(coll[i].tag) && RampTouch(r, coll[i], tile).top
  }

  predicate RampBot(r: Rect, coll: seq<Sprite>, tile: Positive) {
    exists i | 0 <= i < |coll| :: IsRampKind(coll[i].tag) && RampTouch(r, coll[i], tile).bot
  }

  predicate RampLeft(r: Rect, coll: seq<Sprite>, tile: Positive) {
    exists i | 0 <= i < |coll| :: IsRampKind(coll[i].tag) && RampTouch(r, coll[i], tile).left
  }

  predicate RampRight(r: Rect, coll: seq<Sprite>, tile: Positive) {
    exists i | 0 <= i < |coll| :: IsRampKind(coll[i].tag) && RampTouch(r, coll[i], tile).right
  }

  /** Flag by flag disjunction. */
  function Union(a: Sides, b: Sides): Sides {
    Sides(a.top || b.top, a.bot || b.bot, a.left || b.left, a.right || b.right)
  }

  const NoSides := Sides(false, false, false, false)

  /**
   * The flags the ramps of `coll` raise, accumulated in the order of the group: each flag
   * is raised exactly when some ramp of the group raises it.
   */
  function RampFlags(r: Rect, coll: seq<Sprite>, tile: Positive): (f: Sides)
    ensures f == Sides(RampTop(r, coll, tile), RampBot(r, coll, tile), RampLeft(r, coll, tile), RampRight(r, coll, tile))
    decreases |coll|
  {
    if coll == [] then NoSides
    else
      var init := coll[..|coll| - 1];
      var last := coll[|coll| - 1];
      assert coll == init + [last];
      RampFlagsSnoc(r, init, last, tile);
      Union(RampFlags(r, init, tile), if IsRampKind(last.tag) then RampTouch(r, last, tile) else NoSides)
  }

  /** Adding one sprite to the group adds exactly the flags that sprite raises as a ramp. */
  lemma RampFlagsSnoc(r: Rect, coll: seq<Sprite>, s: Sprite, tile: Positive)
    ensures var all := coll + [s]; var t := RampTouch(r, s, tile);
      && RampTop(r, all, tile) == (RampTop(r, coll, tile) || (IsRampKind(s.tag) && t.top))
      && RampBot(r, all, tile) == (RampBot(r, coll, tile) || (IsRampKind(s.tag) && t.bot))
      && RampLeft(r, all, tile) == (RampLeft(r, coll, tile) || (IsRampKind(s.tag) && t.left))
      && RampRight(r, all, tile) == (RampRight(r, coll, tile) || (IsRampKind(s.tag) && t.right))
  {
    var all := coll + [s];
    assert forall i | 0 <= i < |coll| :: all[i] == coll[i];
    assert all[|coll|] == s;
  }

  predicate SemiTouch(bot: Rect, velY: real, semis: seq<Sprite>) {
    exists i | 0 <= i < |semis| :: SemiSupports(bot, velY, semis[i])
  }

  /**
   * The contact flags for the player at `r` moving vertically at `velY`; they depend on
   * the current geometry only, never on the previous flags.
   */
  function SenseContact(r: Rect, velY: real, coll: seq<Sprite>, semis: seq<Sprite>, tile: Positive): (f: Sides)
    ensures f.top <==> SolidTouch(TopProbe(r), coll) || RampTop(r, coll, tile)
    ensures f.bot <==> SolidTouch(BotProbe(r), coll) || SemiTouch(BotProbe(r), velY, semis) || RampBot(r, coll, tile)
    ensures f.left <==> SolidTouch(LeftProbe(r), coll) || RampLeft(r, coll, tile)
    ensures f.right <==> SolidTouch(RightProbe(r), coll) || RampRight(r, coll, tile)
  {
    var solid := Sides(
      SolidTouch(TopProbe(r), coll),
      SolidTouch(BotProbe(r), coll) || SemiTouch(BotProbe(r), velY, semis),
      SolidTouch(LeftProbe(r), coll),
      SolidTouch(RightProbe(r), coll));
    Union(solid, RampFlags(r, coll, tile))
  }

  /** While the player rises, semi-solid platforms give no floor contact. */
  lemma SemiIgnoredWhileRising(r: Rect, velY: real, coll: seq<Sprite>, semis: seq<Sprite>, tile: Positive)
    requires velY < 0.0
    ensures SenseContact(r, velY, coll, semis, tile) == SenseContact(r, velY, coll, [], tile)
  {
  }

  /** A semi-solid platform whose top is above the player's bottom adds no contact. */
  lemma {:induction false} SemiIgnoredFromInside(r: Rect, velY: real, coll: seq<Sprite>, semis: seq<Sprite>, s: Sprite, tile: Positive)
    requires r.Bottom() > s.rect.Top()
    ensures SenseContact(r, velY, coll, semis + [s], tile) == SenseContact(r, velY, coll, semis, tile)
  {
    var all := semis + [s];
    if SemiTouch(BotProbe(r), velY, all) {
      var i :| 0 <= i < |all| && SemiSupports(BotProbe(r), velY, all[i]);
      assert i < |semis| && all[i] == semis[i];
    }
    if SemiTouch(BotProbe(r), velY, semis) {
      var i :| 0 <= i < |semis| && SemiSupports(BotProbe(r), velY, semis[i]);
      assert all[i] == semis[i];
    }
  }

  /**
   * The sloped edge never counts as a wall: a left ramp never gives left contact and a
   * right ramp never gives right contact.
   */
  lemma {:induction false} SlopeIsNoWall(r: Rect, velY: real, coll: seq<Sprite>, semis: seq<Sprite>, s: Sprite, tile: Positive)
    requires s.tag == LeftRamp || s.tag == RightRamp
    ensures s.tag == LeftRamp ==>
      SenseContact(r, velY, coll + [s], semis, tile).left == SenseContact(r, velY, coll, semis, tile).left
    ensures s.tag == RightRamp ==>
      SenseContact(r, velY, coll + [s], semis, tile).right == SenseContact(r, velY, coll, semis, tile).right
  {
    var all := coll + [s];
    assert all[..|all| - 1] == coll;
    assert RampFlags(r, all, tile) == Union(RampFlags(r, coll, tile), RampTouch(r, s, tile));
    SolidTouchIgnoresRamp(LeftProbe(r), coll, s);
    SolidTouchIgnoresRamp(RightProbe(r), coll, s);
  }

  /** A ramp added to the group changes no solid-tile probe. */
  lemma SolidTouchIgnoresRamp(probe: Rect, coll: seq<Sprite>, s: Sprite)
    requires IsRampKind(s.tag)
    ensures SolidTouch(probe, coll + [s]) == SolidTouch(probe, coll)
  {
    var all := coll + [s];
    if SolidTouch(probe, all) {
      var i :| 0 <= i < |all| && IsBasicKind(all[i].tag) && Overlaps(probe, all[i].rect);
      assert i < |coll| && all[i] == coll[i];
    }
    if SolidTouch(probe, coll) {
      var i :| 0 <= i < |coll| && IsBasicKind(coll[i].tag) && Overlaps(probe, coll[i].rect);
      assert all[i] == coll[i];
    }
  }

  /** A sprite that can move and that the bottom probe overlaps. */
  predicate IsCarrier(s: Sprite, bot: Rect) {
    s.motion.Some? && Overlaps(bot, s.rect)
  }

  /** The carrier the source ends up with: the last candidate, since its loop never breaks. */
  function LastCarrier(ps: seq<Sprite>, bot: Rect): (r: Option<Sprite>)
    ensures r.Some? ==> r.value in ps && IsCarrier(r.value, bot)
    ensures r.None? <==> forall i | 0 <= i < |ps| :: !IsCarrier(ps[i], bot)
    decreases |ps|
  {
    if ps == [] then None
    else if IsCarrier(ps[|ps| - 1], bot) then Some(ps[|ps| - 1])
    else LastCarrier(ps[..|ps| - 1], bot)
  }

  /** When there is a carrier, no candidate comes after it. */
  lemma {:induction false} LastCarrierIsLast(ps: seq<Sprite>, bot: Rect)
    requires LastCarrier(ps, bot).Some?
    ensures exists k | 0 <= k < |ps| ::
      ps[k] == LastCarrier(ps, bot).value && forall j | k < j < |ps| :: !IsCarrier(ps[j], bot)
    decreases |ps|
  {
    var n := |ps|;
    if IsCarrier(ps[n - 1], bot) {
      assert ps[n - 1] == LastCarrier(ps, bot).value;
    } else {
      var init := ps[..n - 1];
      LastCarrierIsLast(init, bot);
      var k :| 0 <= k < |init| && init[k] == LastCarrier(init, bot).value
        && forall j | k < j < |init| :: !IsCarrier(init[j], bot);
      assert ps[k] == init[k];
      assert forall j | k < j < n :: !IsCarrier(ps[j], bot) by {
        forall j | k < j < n ensures !IsCarrier(ps[j], bot) {
          if j < n - 1 { assert ps[j] == init[j]; }
        }
      }
    }
  }

  /**
   * `platform_move`: the carrier moves the player by its displacement this frame when the
   * player stands on something or the carrier holds the player on every side.
   */
  function PlatformMove(rect: Rect, sides: Sides, carrier: Option<Sprite>, dt: real): (r: Rect)
    requires carrier.Some? ==> carrier.value.motion.Some?
    ensures r.w == rect.w && r.h == rect.h
    ensures r != rect ==> carrier.Some? && (sides.bot || carrier.value.motion.value.fullCollision)
    ensures carrier.Some? && (sides.bot || carrier.value.motion.value.fullCollision) ==>
      var m := carrier.value.motion.value;
      r.x - rect.x == m.dx * m.speed * dt && r.y - rect.y == m.dy * m.speed * dt
  {
    match carrier
    case None => rect
    case Some(p) =>
      var m := p.motion.value;
      if sides.bot || m.fullCollision then rect.Shifted(m.dx * m.speed * dt, m.dy * m.speed * dt) else rect
  }

  /**
   * A carrier with full collision moves the player whatever the contact flags; one without
   * it moves the player only while bottom contact holds.
   */
  lemma CarryRule(rect: Rect, s1: Sides, s2: Sides, p: Sprite, dt: real)
    requires p.motion.Some?
    ensures p.motion.value.fullCollision ==>
      PlatformMove(rect, s1, Some(p), dt) == PlatformMove(rect, s2, Some(p), dt)
    ensures !p.motion.value.fullCollision && !s1.bot ==> PlatformMove(rect, s1, Some(p), dt) == rect
    ensures !p.motion.value.fullCollision && s1.bot && s2.bot ==>
      PlatformMove(rect, s1, Some(p), dt) == PlatformMove(rect, s2, Some(p), dt)
  {
  }
}
