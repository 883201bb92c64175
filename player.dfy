/** The player character (`Player` in player.py): an object whose position,
    velocity, contacts, state and cooldown timers are updated in place once
    per frame. Each phase of `update` is a method whose contract ties the new
    fields to the rules of `PlayerRules`. The keyboard and the clock are
    passed in as `keys` and `now`. */
module Players {
  import opened Geometry
  import opened Timers
  import opened GameData
  import opened PlayerRules
  import Settings

  /** Cooldowns, in milliseconds. */
  const WALL_JUMP_MS: int := 500
  const BLOCK_WALL_JUMP_MS: int := 300
  const PLATFORM_SKIP_MS: int := 100
  const ATTACK_MS: int := 600
  const HIT_MS: int := 450

  datatype Axis = Horizontal | Vertical

  /** A one-shot cooldown of the given length, without a callback. */
  predicate Cooldown(t: Timer, ms: int)
  {
    t.duration == ms && !t.loops && !t.hasCallback
  }

  class Player {
    /** Number of animation frames for each state. */
    const frameCounts: map<State, int>
    const data: Data
    const posZ: int
    /** While running, the player cannot steer (after a wall jump). */
    const wallJumpTimer: Timer
    /** While running, wall jumps are not allowed (after a ground jump). */
    const blockWallJumpTimer: Timer
    /** While running, one-way platforms are passed through. */
    const platformSkipTimer: Timer
    /** While running, a new attack cannot start. */
    const attackTimer: Timer
    /** While running, damage is ignored. */
    const hitTimer: Timer

    var collisionSprites: seq<Body>
    var semiCollisionSprites: seq<Body>
    var rect: FRect
    var hitbox: FRect
    var lastRect: FRect
    var direction: Vec
    var collisions: Contacts
    /** The platform under the player, as a position in `Supports()`, or -1
        for none. The source keeps a reference to the sprite and reads its
        velocity when it moves the player; the position plays that part, so
        the velocity read is the sprite's current one. */
    var platform: int
    var state: State
    var frame: real
    var image: nat
    var flip: bool
    var attack: bool
    var jump: bool

    /** The fixed configuration: a positive frame count for every state and
        five distinct cooldowns of the right lengths. It reads only constant
        fields, so no update can break it. */
    ghost predicate Config()
    {
      && (forall s: State :: s in frameCounts)
      && (forall s :: s in frameCounts ==> frameCounts[s] > 0)
      && Cooldown(wallJumpTimer, WALL_JUMP_MS)
      && Cooldown(blockWallJumpTimer, BLOCK_WALL_JUMP_MS)
      && Cooldown(platformSkipTimer, PLATFORM_SKIP_MS)
      && Cooldown(attackTimer, ATTACK_MS)
      && Cooldown(hitTimer, HIT_MS)
      && wallJumpTimer != blockWallJumpTimer && wallJumpTimer != platformSkipTimer
      && wallJumpTimer != attackTimer && wallJumpTimer != hitTimer
      && blockWallJumpTimer != platformSkipTimer && blockWallJumpTimer != attackTimer
      && blockWallJumpTimer != hitTimer && platformSkipTimer != attackTimer
      && platformSkipTimer != hitTimer && attackTimer != hitTimer
    }

    ghost predicate Valid()
      reads this, wallJumpTimer, blockWallJumpTimer, platformSkipTimer, attackTimer, hitTimer
    {
      && Config()
      && wallJumpTimer.Valid() && blockWallJumpTimer.Valid() && platformSkipTimer.Valid()
      && attackTimer.Valid() && hitTimer.Valid()
      // the hitbox is the drawn rectangle shrunk by 76 by 36 pixels
      && hitbox.w > 0.0 && hitbox.h > 0.0
      && rect.w == hitbox.w + HITBOX_SHRINK_X && rect.h == hitbox.h + HITBOX_SHRINK_Y
      && -1 <= platform < |collisionSprites| + |semiCollisionSprites|
    }

    /** The sprites a platform is looked for among: the solid ones, then the
        one-way ones. */
    function Supports(): seq<Body>
      reads this
    {
      collisionSprites + semiCollisionSprites
    }

    /** The player stands idle with the top-left corner of its first frame at
        `pos`; the hitbox is centred in that frame. */
    constructor (pos: Vec, frameCounts: map<State, int>, frameSize: Vec,
                 collisionSprites: seq<Body>, semiCollisionSprites: seq<Body>, data: Data)
      requires forall s: State :: s in frameCounts
      requires forall s :: s in frameCounts ==> frameCounts[s] > 0
      requires frameSize.x > HITBOX_SHRINK_X && frameSize.y > HITBOX_SHRINK_Y
      ensures Valid()
      ensures rect == FRect(pos.x, pos.y, frameSize.x, frameSize.y)
      ensures hitbox.Center() == rect.Center() && lastRect == hitbox
      ensures state == Idle && frame == 0.0 && image == 0 && !flip && !attack && !jump
      ensures direction == Vec(0.0, 0.0) && collisions == Contacts(false, false, false) && platform == -1
      ensures posZ == Settings.Depth(Settings.Main)
      ensures this.data == data && this.frameCounts == frameCounts
      ensures this.collisionSprites == collisionSprites && this.semiCollisionSprites == semiCollisionSprites
      ensures fresh(wallJumpTimer) && fresh(blockWallJumpTimer) && fresh(platformSkipTimer)
      ensures fresh(attackTimer) && fresh(hitTimer)
      ensures !wallJumpTimer.active && !blockWallJumpTimer.active && !platformSkipTimer.active
      ensures !attackTimer.active && !hitTimer.active
    {
      this.data := data;
      this.frameCounts := frameCounts;
      this.collisionSprites := collisionSprites;
      this.semiCollisionSprites := semiCollisionSprites;
      posZ := Settings.Depth(Settings.Main);
      state := Idle;
      frame := 0.0;
      image := 0;
      flip := false;
      attack := false;
      jump := false;
      var r := FRect(pos.x, pos.y, frameSize.x, frameSize.y);
      rect := r;
      hitbox := r.Inflate(-HITBOX_SHRINK_X, -HITBOX_SHRINK_Y);
      lastRect := r.Inflate(-HITBOX_SHRINK_X, -HITBOX_SHRINK_Y);
      direction := Vec(0.0, 0.0);
      collisions := Contacts(false, false, false);
      platform := -1;
      wallJumpTimer := new Timer(WALL_JUMP_MS, false, false);
      blockWallJumpTimer := new Timer(BLOCK_WALL_JUMP_MS, false, false);
      platformSkipTimer := new Timer(PLATFORM_SKIP_MS, false, false);
      attackTimer := new Timer(ATTACK_MS, false, false);
      hitTimer := new Timer(HIT_MS, false, false);
    }

    /** One frame: remember the hitbox, update the cooldowns, read the keys,
        move, ride the platform found in the previous frame, then recompute
        the contacts, the state and the animation. At the end the contact
        flags and the platform describe the final hitbox, and the jump
        request has been consumed. */
    method Update(dt: real, now: int, keys: Keys)
      requires Valid()
      modifies this`lastRect, this`hitbox, this`rect, this`direction, this`jump, this`flip, this`attack
      modifies this`frame, this`collisions, this`platform, this`state, this`image
      modifies wallJumpTimer, blockWallJumpTimer, platformSkipTimer, attackTimer, hitTimer
      ensures Valid()
      ensures lastRect == old(hitbox)
      ensures !jump
      ensures collisions == ComputeContacts(hitbox, direction.y, collisionSprites, semiCollisionSprites)
      ensures platform == LastCarrierIndex(DownProbe(hitbox), Supports())
    {
      lastRect := hitbox;
      Act(dt, now, keys);
      React(dt);
    }

    /** The first half of `update`: cooldowns, keys and movement. */
    method Act(dt: real, now: int, keys: Keys)
      requires Valid()
      modifies this`hitbox, this`rect, this`direction, this`jump, this`flip, this`attack, this`frame
      modifies wallJumpTimer, blockWallJumpTimer, platformSkipTimer, attackTimer, hitTimer
      ensures Valid()
      ensures !jump
    {
      UpdateTimers(now);
      Input(keys, now);
      Move(dt, now);
      MovePlatform(dt);
    }

    /** The second half of `update`: contacts, state and animation, all
        computed from the position reached by `Act`. */
    method React(dt: real)
      requires Valid()
      modifies this`collisions, this`platform, this`state, this`frame, this`image, this`attack
      ensures Valid()
      ensures collisions == ComputeContacts(hitbox, direction.y, collisionSprites, semiCollisionSprites)
      ensures platform == LastCarrierIndex(DownProbe(hitbox), Supports())
      ensures state == (if NextState(collisions, old(attack), direction) == Attack
                           && frame >= frameCounts[Attack] as real then Idle
                        else NextState(collisions, old(attack), direction))
      ensures frame == old(frame) + Settings.ANIMATION_SPEED as real * dt
      ensures image == WrappedIndex(frame, frameCounts[state])
      ensures attack == (old(attack) && frame < frameCounts[state] as real)
    {
      CheckContact();
      UpdateState();
      Animate(dt);
    }

    /** `_update_timers`: every cooldown whose time is up stops. */
    method UpdateTimers(now: int)
      requires Valid()
      modifies wallJumpTimer, blockWallJumpTimer, platformSkipTimer, attackTimer, hitTimer
      ensures Valid()
      ensures wallJumpTimer.State() == Updated(WALL_JUMP_MS, false, false, old(wallJumpTimer.State()), now).0
      ensures blockWallJumpTimer.State() == Updated(BLOCK_WALL_JUMP_MS, false, false, old(blockWallJumpTimer.State()), now).0
      ensures platformSkipTimer.State() == Updated(PLATFORM_SKIP_MS, false, false, old(platformSkipTimer.State()), now).0
      ensures attackTimer.State() == Updated(ATTACK_MS, false, false, old(attackTimer.State()), now).0
      ensures hitTimer.State() == Updated(HIT_MS, false, false, old(hitTimer.State()), now).0
    {
      wallJumpTimer.Update(now);
      blockWallJumpTimer.Update(now);
      platformSkipTimer.Update(now);
      attackTimer.Update(now);
      hitTimer.Update(now);
    }

    /** `_input`: unless a wall jump is in progress, steer and face by the
        arrow keys, start passing through one-way platforms on Down, and
        attack. A jump request is remembered in any case. */
    method Input(keys: Keys, now: int)
      requires Valid()
      modifies this`direction, this`flip, this`jump, this`attack, this`frame, platformSkipTimer, attackTimer
      ensures Valid()
      ensures jump == (old(jump) || keys.jump)
      ensures wallJumpTimer.active ==>
        && direction == old(direction) && flip == old(flip)
        && attack == old(attack) && frame == old(frame)
        && platformSkipTimer.State() == old(platformSkipTimer.State())
        && attackTimer.State() == old(attackTimer.State())
      ensures !wallJumpTimer.active ==>
        && direction == Vec(HorizontalInput(keys.left, keys.right), old(direction.y))
        && flip == (if keys.right then false else if keys.left then true else old(flip))
        && platformSkipTimer.State() == (if keys.down then TimerState(now, true) else old(platformSkipTimer.State()))
        && (keys.attack && !old(attackTimer.active) ==>
              attack && frame == 0.0 && attackTimer.State() == TimerState(now, true))
        && (!(keys.attack && !old(attackTimer.active)) ==>
              attack == old(attack) && frame == old(frame) && attackTimer.State() == old(attackTimer.State()))
    {
      if !wallJumpTimer.active {
        if keys.left {
          flip := true;
        }
        if keys.right {
          flip := false;
        }
        if keys.down {
          platformSkipTimer.Start(now);
        }
        if keys.attack {
          StartAttack(now);
        }
        direction := direction.(x := HorizontalInput(keys.left, keys.right));
      }
      if keys.jump {
        jump := true;
      }
    }

    /** `_attack`: start an attack from its first frame, unless the attack
        cooldown is still running. */
    method StartAttack(now: int)
      requires Valid()
      modifies this`attack, this`frame, attackTimer
      ensures Valid()
      ensures old(attackTimer.active) ==>
        attack == old(attack) && frame == old(frame) && attackTimer.State() == old(attackTimer.State())
      ensures !old(attackTimer.active) ==>
        attack && frame == 0.0 && attackTimer.State() == TimerState(now, true)
    {
      if !attackTimer.active {
        attack := true;
        frame := 0.0;
        attackTimer.Start(now);
      }
    }

    /** `_move`: move horizontally and resolve against solid sprites, fall,
        jump, resolve vertically against solid and then one-way sprites, and
        centre the drawn rectangle on the hitbox. */
    method Move(dt: real, now: int)
      requires Valid()
      modifies this`hitbox, this`direction, this`jump, this`rect, wallJumpTimer, blockWallJumpTimer
      ensures Valid()
      ensures !jump
      ensures rect.Center() == hitbox.Center()
      ensures wallJumpTimer.State() == old(wallJumpTimer.State()) || wallJumpTimer.State() == TimerState(now, true)
      ensures blockWallJumpTimer.State() == old(blockWallJumpTimer.State()) || blockWallJumpTimer.State() == TimerState(now, true)
    {
      hitbox := hitbox.(x := hitbox.x + direction.x * SPEED * dt);
      CheckCollisions(Horizontal);
      ApplyGravity(dt);
      ApplyJump(now);
      CheckCollisions(Vertical);
      CheckSemiCollisions();
      rect := rect.WithCenter(hitbox.Center());
    }

    /** Gravity: sliding down a wall is a slow fall at a tenth of gravity with
        no vertical velocity; otherwise the free fall of `FallStep`. */
    method ApplyGravity(dt: real)
      requires Valid()
      modifies this`hitbox, this`direction
      ensures Valid()
      ensures hitbox.x == old(hitbox.x) && hitbox.w == old(hitbox.w) && hitbox.h == old(hitbox.h)
      ensures direction.x == old(direction.x)
      ensures WallSliding(collisions, blockWallJumpTimer.active) ==>
        direction.y == 0.0 && hitbox.y == old(hitbox.y) + GRAVITY / 10.0 * dt
      ensures !WallSliding(collisions, blockWallJumpTimer.active) ==>
        (hitbox.y, direction.y) == FallStep(old(hitbox.y), old(direction.y), dt)
    {
      if WallSliding(collisions, blockWallJumpTimer.active) {
        direction := direction.(y := 0.0);
        hitbox := hitbox.(y := hitbox.y + GRAVITY / 10.0 * dt);
      } else {
        ghost var y0, vy0 := hitbox.y, direction.y;
        direction := direction.(y := direction.y + GRAVITY / 2.0 * dt);
        ghost var halfway := direction.y;
        hitbox := hitbox.(y := hitbox.y + direction.y * dt);
        direction := direction.(y := direction.y + GRAVITY / 2.0 * dt);
        assert FallStep(y0, vy0, dt).0 == y0 + (vy0 + GRAVITY / 2.0 * dt) * dt;
        assert hitbox.y == y0 + halfway * dt && halfway == vy0 + GRAVITY / 2.0 * dt;
        assert hitbox.y == FallStep(y0, vy0, dt).0;
      }
    }

    /** A pending jump request is carried out as `ChooseLeap` decides and then
        dropped. A ground jump lifts the hitbox by one pixel and blocks wall
        jumps for a while; a wall jump pushes away from the wall and takes
        the steering away for a while. */
    method ApplyJump(now: int)
      requires Valid()
      modifies this`direction, this`hitbox, this`jump, wallJumpTimer, blockWallJumpTimer
      ensures Valid()
      ensures !jump
      ensures var leap := ChooseLeap(old(jump), collisions, old(blockWallJumpTimer.active));
        match leap
        case NoLeap =>
          && direction == old(direction) && hitbox == old(hitbox)
          && wallJumpTimer.State() == old(wallJumpTimer.State())
          && blockWallJumpTimer.State() == old(blockWallJumpTimer.State())
        case GroundLeap =>
          && direction == Vec(old(direction.x), -JUMP_POWER)
          && hitbox == old(hitbox).(y := old(hitbox.y) - 1.0)
          && wallJumpTimer.State() == old(wallJumpTimer.State())
          && blockWallJumpTimer.State() == TimerState(now, true)
        case WallLeap(away) =>
          && direction == Vec(away, -JUMP_POWER) && hitbox == old(hitbox)
          && wallJumpTimer.State() == TimerState(now, true)
          && blockWallJumpTimer.State() == old(blockWallJumpTimer.State())
    {
      if jump {
        if collisions.down {
          direction := direction.(y := -JUMP_POWER);
          blockWallJumpTimer.Start(now);
          hitbox := hitbox.WithBottom(hitbox.Bottom() - 1.0);
        } else if (collisions.left || collisions.right) && !blockWallJumpTimer.active {
          wallJumpTimer.Start(now);
          direction := direction.(y := -JUMP_POWER);
          direction := direction.(x := if collisions.left then 1.0 else -1.0);
        }
        jump := false;
      }
    }

    /** `_check_collisions`: one pass over the solid sprites along one axis,
        the same as folding `SnapHorizontal` or `SnapVertical` over the group. */
    method CheckCollisions(axis: Axis)
      requires Valid()
      modifies this`hitbox, this`direction
      ensures Valid()
      ensures axis == Horizontal ==>
        hitbox == ResolveHorizontal(old(hitbox), lastRect, collisionSprites) && direction == old(direction)
      ensures axis == Vertical ==>
        (hitbox, direction.y) == ResolveVertical(old(hitbox), old(direction.y), lastRect, collisionSprites)
        && direction.x == old(direction.x)
    {
      var k := 0;
      while k < |collisionSprites|
        invariant 0 <= k <= |collisionSprites|
        invariant axis == Horizontal ==>
          hitbox == ResolveHorizontal(old(hitbox), lastRect, collisionSprites[..k]) && direction == old(direction)
        invariant axis == Vertical ==>
          (hitbox, direction.y) == ResolveVertical(old(hitbox), old(direction.y), lastRect, collisionSprites[..k])
          && direction.x == old(direction.x)
      {
        assert collisionSprites[..k + 1][..k] == collisionSprites[..k];
        CollideWith(collisionSprites[k], axis);
        k := k + 1;
      }
      assert collisionSprites[..k] == collisionSprites;
    }

    /** The body of the `_check_collisions` loop for one solid sprite. */
    method CollideWith(sprite: Body, axis: Axis)
      modifies this`hitbox, this`direction
      ensures axis == Horizontal ==>
        hitbox == SnapHorizontal(old(hitbox), lastRect, sprite) && direction == old(direction)
      ensures axis == Vertical ==>
        (hitbox, direction.y) == SnapVertical(old(hitbox), old(direction.y), lastRect, sprite)
        && direction.x == old(direction.x)
    {
      if Collide(sprite.rect, hitbox) {
        if axis == Horizontal {
          if FromRight(hitbox, lastRect, sprite) {
            hitbox := hitbox.WithLeft(sprite.rect.Right());
          }
          if FromLeft(hitbox, lastRect, sprite) {
            hitbox := hitbox.WithRight(sprite.rect.Left());
          }
        } else {
          if FromBelow(hitbox, lastRect, sprite) {
            hitbox := hitbox.WithTop(sprite.rect.Bottom());
            if sprite.isMover {
              hitbox := hitbox.WithTop(hitbox.Top() + MOVER_PUSH);
            }
          }
          if FromAbove(hitbox, lastRect, sprite) {
            hitbox := hitbox.WithBottom(sprite.rect.Top());
          }
          direction := direction.(y := 0.0);
        }
      }
    }

    /** `_check_semi_collisions`: unless Down was pressed recently, one pass
        over the one-way sprites, the same as folding `SnapSemi` over them. */
    method CheckSemiCollisions()
      requires Valid()
      modifies this`hitbox, this`direction
      ensures Valid()
      ensures platformSkipTimer.active ==> hitbox == old(hitbox) && direction == old(direction)
      ensures !platformSkipTimer.active ==>
        (hitbox, direction.y) == ResolveSemi(old(hitbox), old(direction.y), lastRect, semiCollisionSprites)
        && direction.x == old(direction.x)
    {
      if !platformSkipTimer.active {
        var k := 0;
        while k < |semiCollisionSprites|
          invariant 0 <= k <= |semiCollisionSprites|
          invariant (hitbox, direction.y) == ResolveSemi(old(hitbox), old(direction.y), lastRect, semiCollisionSprites[..k])
          invariant direction.x == old(direction.x)
        {
          var sprite := semiCollisionSprites[k];
          assert semiCollisionSprites[..k + 1][..k] == semiCollisionSprites[..k];
          if Collide(sprite.rect, hitbox) {
            if FromAbove(hitbox, lastRect, sprite) {
              hitbox := hitbox.WithBottom(sprite.rect.Top());
              if direction.y > 0.0 {
                direction := direction.(y := 0.0);
              }
            }
          }
          k := k + 1;
        }
        assert semiCollisionSprites[..k] == semiCollisionSprites;
      }
    }

    /** `_move_platform`: standing on a moving platform carries the hitbox
        along with the platform's velocity. */
    method MovePlatform(dt: real)
      requires Valid()
      modifies this`hitbox
      ensures Valid()
      ensures platform < 0 ==> hitbox == old(hitbox)
      ensures platform >= 0 ==> hitbox == old(hitbox).Moved(Supports()[platform].motion.Scale(dt))
    {
      if platform >= 0 {
        hitbox := hitbox.Moved(Supports()[platform].motion.Scale(dt));
      }
    }

    /** `_check_contact`: probe the floor and both walls, and find the moving
        platform under the player among all solid and one-way sprites. */
    method CheckContact()
      requires Valid()
      modifies this`collisions, this`platform
      ensures Valid()
      ensures collisions == ComputeContacts(hitbox, direction.y, collisionSprites, semiCollisionSprites)
      ensures platform == LastCarrierIndex(DownProbe(hitbox), Supports())
    {
      collisions := ComputeContacts(hitbox, direction.y, collisionSprites, semiCollisionSprites);
      platform := LastCarrier(DownProbe(hitbox), Supports());
    }

    /** `handle_damage`: lose one health point, which redraws the hearts,
        unless the player was hit within the cooldown. */
    method HandleDamage(now: int)
      requires Valid()
      modifies hitTimer, data`health, data`uiLog
      ensures Valid()
      ensures old(hitTimer.active) ==>
        hitTimer.State() == old(hitTimer.State()) && data.health == old(data.health) && data.uiLog == old(data.uiLog)
      ensures !old(hitTimer.active) ==>
        && data.health == old(data.health) - 1
        && data.uiLog == old(data.uiLog) + [UiCall.CreateHearts(old(data.health) - 1)]
        && hitTimer.State() == TimerState(now, true)
    {
      if !hitTimer.active {
        data.SetHealth(data.health - 1);
        hitTimer.Start(now);
      }
    }

    /** `_update_state`: the state `NextState` chooses for the contacts, the
        attack flag and the velocity. */
    method UpdateState()
      requires Valid()
      modifies this`state
      ensures Valid()
      ensures state == NextState(collisions, attack, direction)
    {
      if collisions.down {
        if attack {
          state := Attack;
        } else {
          state := if direction.x == 0.0 then Idle else Run;
        }
      } else {
        if attack {
          state := AirAttack;
        } else if collisions.left || collisions.right {
          state := Wall;
        } else {
          state := if direction.y < 0.0 then Jump else Fall;
        }
      }
    }

    /** `_animate`: advance the frame counter; a finished ground attack goes
        back to idle; the image is the counter wrapped around the state's
        frames; the attack flag drops once the counter passes the current
        state's last frame. */
    method Animate(dt: real)
      requires Valid()
      modifies this`frame, this`state, this`image, this`attack
      ensures Valid()
      ensures frame == old(frame) + Settings.ANIMATION_SPEED as real * dt
      ensures state == (if old(state) == Attack && frame >= frameCounts[Attack] as real then Idle else old(state))
      ensures image == WrappedIndex(frame, frameCounts[state]) && image < frameCounts[state]
      ensures attack == (old(attack) && frame < frameCounts[state] as real)
    {
      frame := frame + Settings.ANIMATION_SPEED as real * dt;
      if state == Attack && frame >= frameCounts[state] as real {
        state := Idle;
      }
      image := WrappedIndex(frame, frameCounts[state]);
      if attack && frame >= frameCounts[state] as real {
        attack := false;
      }
    }
  }
}
