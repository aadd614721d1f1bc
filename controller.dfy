/**
 * Jump and input handling (`jump`, `player_input`): grounded jumps, wall jumps, the
 * direction-key latches, and the two timers, each seen only as active or not.
 */
module Controller {
  import opened World
  import opened Resolve

  /** `LEFT_KEY`, `RIGHT_KEY`, and whether `wall_jump_move_block` and `unlock_semi_drop_down` run. */
  datatype Latches = Latches(leftKey: bool, rightKey: bool, wallJumpLock: bool, dropDown: bool)

  /** The keys held this frame: space, a, d and s. */
  datatype Keys = Keys(jump: bool, left: bool, right: bool, down: bool)

  datatype Actor = Actor(body: Body, latches: Latches)

  /** Standing on something, nothing overhead, not already in a jump. */
  predicate CanGroundJump(b: Body) {
    b.sides.bot && !b.sides.top && !b.isJumping
  }

  /** In the air against a wall, not already in a jump, and no wall jump just made. */
  predicate CanWallJump(b: Body, l: Latches) {
    !b.sides.bot && (b.sides.left || b.sides.right) && !b.isJumping && !l.wallJumpLock
  }

  /**
   * `jump`: a grounded jump subtracts the jump impulse; a wall jump subtracts 0.7 of it,
   * sends the player away from the wall at full horizontal speed, starts the lock and
   * drops both key latches. Anything else changes nothing.
   */
  function Jump(a: Actor, st: Settings): (r: Actor)
    ensures r.body == a.body.(velX := r.body.velX, velY := r.body.velY, isJumping := r.body.isJumping)
    ensures r.latches.dropDown == a.latches.dropDown
    ensures r != a ==> r.body.isJumping && !a.body.isJumping
    ensures r.latches != a.latches ==> r.latches.wallJumpLock && !a.latches.wallJumpLock
  {
    var b := a.body;
    if CanGroundJump(b) then
      a.(body := b.(isJumping := true, velY := b.velY - st.jumpVelocity))
    else if CanWallJump(b, a.latches) then
      Actor(
        b.(isJumping := true, velY := b.velY - st.jumpVelocity * 0.7,
           velX := if b.sides.left then st.maxVelX else -(st.maxVelX as real)),
        a.latches.(wallJumpLock := true, leftKey := false, rightKey := false))
    else a
  }

  lemma GroundJumpRule(a: Actor, st: Settings)
    requires CanGroundJump(a.body)
    ensures var r := Jump(a, st);
      && r.body.isJumping && r.body.velY == a.body.velY - st.jumpVelocity
      && r.body.velX == a.body.velX && r.latches == a.latches
  {
  }

  /** A wall jump goes up at 0.7 of the impulse and away from the wall it touched. */
  lemma WallJumpRule(a: Actor, st: Settings)
    requires CanWallJump(a.body, a.latches)
    ensures var r := Jump(a, st);
      && r.body.isJumping && r.body.velY == a.body.velY - 0.7 * st.jumpVelocity
      && (a.body.sides.left ==> r.body.velX == st.maxVelX > 0.0)
      && (!a.body.sides.left ==> r.body.velX == -(st.maxVelX as real) < 0.0)
      && r.latches == a.latches.(wallJumpLock := true, leftKey := false, rightKey := false)
  {
  }

  /** In a jump already, or in the air while the lock runs, a jump does nothing. */
  lemma JumpBlocked(a: Actor, st: Settings)
    requires a.body.isJumping || (a.latches.wallJumpLock && !a.body.sides.bot)
      || (!a.body.sides.bot && !a.body.sides.left && !a.body.sides.right)
      || (a.body.sides.bot && a.body.sides.top)
    ensures Jump(a, st) == a
  {
  }

  /**
   * After a wall jump, a second attempt in the air does nothing while the lock runs, even
   * once the jump itself was released.
   */
  lemma WallJumpThenLocked(a: Actor, st: Settings, released: bool)
    requires CanWallJump(a.body, a.latches)
    ensures var r := Jump(a, st);
      var again := r.(body := r.body.(isJumping := !released && r.body.isJumping));
      Jump(again, st) == again
  {
  }

  /** The timers' own clock: a running timer stops when its duration is over. */
  function ExpireTimers(l: Latches, lockOver: bool, dropOver: bool): (r: Latches)
    ensures r.leftKey == l.leftKey && r.rightKey == l.rightKey
    ensures r.wallJumpLock ==> l.wallJumpLock
    ensures r.dropDown ==> l.dropDown
    ensures lockOver ==> !r.wallJumpLock
    ensures !lockOver ==> r.wallJumpLock == l.wallJumpLock
    ensures dropOver ==> !r.dropDown
    ensures !dropOver ==> r.dropDown == l.dropDown
  {
    l.(wallJumpLock := l.wallJumpLock && !lockOver, dropDown := l.dropDown && !dropOver)
  }

  /**
   * `player_input`: space tries a jump; a and d latch their direction unless the wall-jump
   * lock runs (the lock the jump may just have started); s starts the drop-down timer;
   * releasing space cuts a running jump; releasing a or d drops its latch.
   */
  function PlayerInput(a: Actor, k: Keys, st: Settings): (r: Actor)
    ensures r.body == a.body.(velX := r.body.velX, velY := r.body.velY, isJumping := r.body.isJumping)
    ensures r.latches.wallJumpLock <==> a.latches.wallJumpLock || (k.jump && CanWallJump(a.body, a.latches))
    ensures r.latches.leftKey ==> k.left
    ensures r.latches.rightKey ==> k.right
    ensures r.latches.dropDown <==> a.latches.dropDown || k.down
  {
    ReleaseKeys(PressKeys(if k.jump then Jump(a, st) else a, k), k)
  }

  /** The keys held down: a and d latch unless the lock runs, s holds the drop-down latch. */
  function PressKeys(j: Actor, k: Keys): Actor {
    var l1 := j.latches;
    var l2 := if !l1.wallJumpLock then l1.(leftKey := l1.leftKey || k.left, rightKey := l1.rightKey || k.right) else l1;
    j.(latches := if k.down then l2.(dropDown := true) else l2)
  }

  /** The keys released: space cuts the jump, a and d drop their latches. */
  function ReleaseKeys(p: Actor, k: Keys): Actor {
    var b := if !k.jump then CutJump(p.body) else p.body;
    Actor(b, p.latches.(leftKey := p.latches.leftKey && k.left, rightKey := p.latches.rightKey && k.right))
  }

  /**
   * The start of `update`: last frame's rectangle is remembered, the timers run, then the
   * input is read. Only the speeds, the jump flag and `old_rect` change in the body, and
   * `old_rect` becomes the rectangle the frame starts from.
   */
  function StartFrame(a: Actor, k: Keys, lockOver: bool, dropOver: bool, st: Settings): (r: Actor)
    ensures r.body == a.body.(oldRect := a.body.rect, velX := r.body.velX, velY := r.body.velY, isJumping := r.body.isJumping)
    ensures r.latches.dropDown <==> (a.latches.dropDown && !dropOver) || k.down
    ensures r.latches.wallJumpLock <==>
      (a.latches.wallJumpLock && !lockOver) || (k.jump && CanWallJump(a.body, ExpireTimers(a.latches, lockOver, dropOver)))
  {
    PlayerInput(Actor(a.body.(oldRect := a.body.rect), ExpireTimers(a.latches, lockOver, dropOver)), k, st)
  }

  /**
   * A latch is held only while its key is; a key latches when no lock runs; while the lock
   * runs no new latch is set.
   */
  lemma LatchRules(a: Actor, k: Keys, st: Settings)
    ensures var r := PlayerInput(a, k, st);
      && (r.latches.leftKey ==> k.left) && (r.latches.rightKey ==> k.right)
      && (!r.latches.wallJumpLock ==> r.latches.leftKey == k.left && r.latches.rightKey == k.right)
      && (a.latches.wallJumpLock ==> (r.latches.leftKey ==> a.latches.leftKey) && (r.latches.rightKey ==> a.latches.rightKey))
  {
  }

  /** A wall jump on this frame's space press leaves both latches off. */
  lemma WallJumpDropsLatches(a: Actor, k: Keys, st: Settings)
    requires k.jump && CanWallJump(a.body, a.latches)
    ensures var r := PlayerInput(a, k, st);
      !r.latches.leftKey && !r.latches.rightKey && r.latches.wallJumpLock && r.body.isJumping
  {
  }

  /**
   * Releasing space ends the jump and keeps a quarter of the vertical speed; holding it keeps
   * whatever jump state the jump rule produced.
   */
  lemma JumpReleaseRule(a: Actor, k: Keys, st: Settings)
    ensures var r := PlayerInput(a, k, st);
      && (!k.jump ==> !r.body.isJumping)
      && (!k.jump && a.body.isJumping ==> r.body.velY == 0.25 * a.body.velY)
      && (!k.jump && !a.body.isJumping ==> r.body == a.body)
      && (k.jump ==> r.body == Jump(a, st).body)
  {
  }

  /** Pressing s starts the drop-down timer; input never stops a running timer. */
  lemma TimerRules(a: Actor, k: Keys, st: Settings)
    ensures var r := PlayerInput(a, k, st);
      && (k.down ==> r.latches.dropDown)
      && (!k.down ==> r.latches.dropDown == a.latches.dropDown)
      && (a.latches.wallJumpLock ==> r.latches.wallJumpLock)
      && (r.latches.wallJumpLock && !a.latches.wallJumpLock ==> k.jump && CanWallJump(a.body, a.latches))
  {
  }

  /**
   * Once the lock's duration is over, a frame without a new wall jump leaves the lock off
   * and the a and d latches follow the keys again.
   */
  lemma LockExpiresLatchesReturn(a: Actor, k: Keys, dropOver: bool, st: Settings)
    requires !(k.jump && CanWallJump(a.body, ExpireTimers(a.latches, true, dropOver)))
    ensures var r := StartFrame(a, k, true, dropOver, st);
      !r.latches.wallJumpLock && r.latches.leftKey == k.left && r.latches.rightKey == k.right
  {
    var e := Actor(a.body.(oldRect := a.body.rect), ExpireTimers(a.latches, true, dropOver));
    LatchRules(e, k, st);
  }
}
