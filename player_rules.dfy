/** The decisions and kinematics of the player character (player.py),
    stated as pure functions over values: keyboard direction, state choice,
    gravity, jumping, the swept collision rules against solid and one-way
    sprites, and the contact probes. `Players.Player` applies them to its
    fields step by step. */
module PlayerRules {
  import opened Geometry

  /** Horizontal speed, in pixels per second. */
  const SPEED: real := 200.0
  /** Downward acceleration, in pixels per second squared. */
  const GRAVITY: real := 1350.0
  /** Upward speed given by a jump, in pixels per second. */
  const JUMP_POWER: real := 800.0
  /** The hitbox is the visual rectangle shrunk by this much in each axis. */
  const HITBOX_SHRINK_X: real := 76.0
  const HITBOX_SHRINK_Y: real := 36.0
  /** How far the player is pushed down after bumping into a moving sprite from below. */
  const MOVER_PUSH: real := 6.0
  /** Thickness of the contact probes, in pixels. */
  const PROBE: real := 2.0

  datatype State = Idle | Run | Jump | Fall | Wall | Attack | AirAttack

  /** The keys held this tick: left is Left or A, right is Right or D, down is
      Down or S, attack is K or X, jump is Up, W or Space. */
  datatype Keys = Keys(left: bool, right: bool, down: bool, attack: bool, jump: bool)

  /** What the player sees of a sprite in a collision group: its rectangle and
      previous rectangle, whether it is a moving platform, and for a moving
      platform its velocity (direction times speed). */
  datatype Body = Body(rect: FRect, lastRect: FRect, isMover: bool, motion: Vec)

  /** Whether the floor, a wall on the left or a wall on the right is touched. */
  datatype Contacts = Contacts(down: bool, left: bool, right: bool)

  // ---------------------------------------------------------------- input

  /** The normalised horizontal direction for the held keys: left alone gives
      -1, right alone gives 1, both or neither give 0. */
  function HorizontalInput(left: bool, right: bool): (dx: real)
    ensures dx == -1.0 <==> left && !right
    ensures dx == 1.0 <==> right && !left
    ensures dx == 0.0 <==> left == right
  {
    var raw := (if left then -1.0 else 0.0) + (if right then 1.0 else 0.0);
    if raw != 0.0 then raw / (if raw < 0.0 then -raw else raw) else raw
  }

  // ---------------------------------------------------------------- state

  /** `_update_state`: the animation state for the contacts, the attack flag
      and the velocity. Every state is chosen under exactly one condition. */
  function NextState(c: Contacts, attack: bool, direction: Vec): (s: State)
    ensures s == Attack <==> c.down && attack
    ensures s == Idle <==> c.down && !attack && direction.x == 0.0
    ensures s == Run <==> c.down && !attack && direction.x != 0.0
    ensures s == AirAttack <==> !c.down && attack
    ensures s == Wall <==> !c.down && !attack && (c.left || c.right)
    ensures s == Jump <==> !c.down && !attack && !c.left && !c.right && direction.y < 0.0
    ensures s == Fall <==> !c.down && !attack && !c.left && !c.right && direction.y >= 0.0
  {
    if c.down then
      if attack then Attack else if direction.x == 0.0 then Idle else Run
    else if attack then AirAttack
    else if c.left || c.right then Wall
    else if direction.y < 0.0 then Jump
    else Fall
  }

  // ---------------------------------------------------------------- gravity and jumps

  /** Sliding down a wall: in the air, touching a wall, and not within the
      short time after a ground jump during which wall jumps are blocked. */
  predicate WallSliding(c: Contacts, wallJumpBlocked: bool)
  {
    !c.down && (c.left || c.right) && !wallJumpBlocked
  }

  /** Free fall over `dt` seconds, integrated in two half steps of the
      velocity around the position update. For constant gravity this is the
      exact motion: the position follows the parabola and the velocity gains
      gravity times `dt`. */
  function FallStep(y: real, vy: real, dt: real): (r: (real, real))
    ensures r.1 == vy + GRAVITY * dt
    ensures r.0 == y + vy * dt + GRAVITY * dt * dt / 2.0
  {
    var halfway := vy + GRAVITY / 2.0 * dt;
    (y + halfway * dt, halfway + GRAVITY / 2.0 * dt)
  }

  /** The outcome of a requested jump. */
  datatype Leap = NoLeap | GroundLeap | WallLeap(awayX: real)

  /** A jump from the ground is always allowed; in the air a jump off a wall
      is allowed unless wall jumps are blocked, and it pushes away from the
      wall: rightwards off a left wall, leftwards otherwise. */
  function ChooseLeap(requested: bool, c: Contacts, wallJumpBlocked: bool): (l: Leap)
    ensures l.GroundLeap? <==> requested && c.down
    ensures l.WallLeap? <==> requested && !c.down && (c.left || c.right) && !wallJumpBlocked
    ensures l.WallLeap? ==> (l.awayX == 1.0 <==> c.left) && (l.awayX == -1.0 <==> !c.left)
  {
    if !requested then NoLeap
    else if c.down then GroundLeap
    else if (c.left || c.right) && !wallJumpBlocked then WallLeap(if c.left then 1.0 else -1.0)
    else NoLeap
  }

  // ---------------------------------------------------------------- swept collision

  /** The direction of approach is read from the previous frame: both
      previous rectangles are compared, each edge truncated to a whole pixel. */
  predicate FromRight(h: FRect, last: FRect, b: Body)
  {
    h.Left() <= b.rect.Right() && Trunc(last.Left()) >= Trunc(b.lastRect.Right())
  }

  predicate FromLeft(h: FRect, last: FRect, b: Body)
  {
    h.Right() >= b.rect.Left() && Trunc(last.Right()) <= Trunc(b.lastRect.Left())
  }

  predicate FromBelow(h: FRect, last: FRect, b: Body)
  {
    h.Top() <= b.rect.Bottom() && Trunc(last.Top()) >= Trunc(b.lastRect.Bottom())
  }

  predicate FromAbove(h: FRect, last: FRect, b: Body)
  {
    h.Bottom() >= b.rect.Top() && Trunc(last.Bottom()) <= Trunc(b.lastRect.Top())
  }

  /** The horizontal pass for one solid sprite overlapping the hitbox `h`: a
      player coming from the right is put flush against its right side; then,
      if the player came from the left, flush against its left side. The
      second test reads the hitbox as the first one left it. */
  function SnapHorizontal(h: FRect, last: FRect, b: Body): (r: FRect)
    ensures r.y == h.y && r.w == h.w && r.h == h.h
    ensures !Collide(b.rect, h) ==> r == h
    ensures Collide(b.rect, h) && !FromRight(h, last, b) && !FromLeft(h, last, b) ==> r == h
    ensures Collide(b.rect, h) && !FromRight(h, last, b) && FromLeft(h, last, b) ==> r.Right() == b.rect.Left()
    ensures Collide(b.rect, h) && FromRight(h, last, b) ==>
      if FromLeft(h.WithLeft(b.rect.Right()), last, b) then r.Right() == b.rect.Left()
      else r.Left() == b.rect.Right()
  {
    if !Collide(b.rect, h) then h
    else
      var h1 := if FromRight(h, last, b) then h.WithLeft(b.rect.Right()) else h;
      if FromLeft(h1, last, b) then h1.WithRight(b.rect.Left()) else h1
  }

  /** When the approach is recognised, the pass leaves the hitbox flush
      against the sprite and no longer overlapping it. */
  lemma SnapHorizontalSeparates(h: FRect, last: FRect, b: Body)
    requires h.w > 0.0 && h.h > 0.0 && b.rect.w > 0.0 && b.rect.h > 0.0
    requires Collide(b.rect, h) && (FromRight(h, last, b) || FromLeft(h, last, b))
    ensures !Collide(b.rect, SnapHorizontal(h, last, b))
  {
    var r := SnapHorizontal(h, last, b);
    CollideIsStrictOverlap(b.rect, r);
    if !FromRight(h, last, b) {
      assert r.Right() == b.rect.Left();
    }
  }

  /** The horizontal pass over a whole group, sprite by sprite in group order. */
  function ResolveHorizontal(h: FRect, last: FRect, bodies: seq<Body>): (r: FRect)
    ensures r.y == h.y && r.w == h.w && r.h == h.h
    decreases |bodies|
  {
    if bodies == [] then h
    else SnapHorizontal(ResolveHorizontal(h, last, bodies[..|bodies| - 1]), last, bodies[|bodies| - 1])
  }

  /** Where a player bumping into `b` from below is put: just under it, and
      6 pixels lower under a moving platform. */
  function Under(h: FRect, b: Body): (r: FRect)
    ensures r.x == h.x && r.w == h.w && r.h == h.h
    ensures r.Top() == b.rect.Bottom() + (if b.isMover then MOVER_PUSH else 0.0)
  {
    h.WithTop(b.rect.Bottom() + (if b.isMover then MOVER_PUSH else 0.0))
  }

  /** The vertical pass for one solid sprite overlapping the hitbox `h`: a
      player coming from below is put `Under` it, then a player coming from
      above (judged on the hitbox as the first test left it) is stood on it;
      the vertical velocity is zeroed whichever side was hit. */
  function SnapVertical(h: FRect, vy: real, last: FRect, b: Body): (r: (FRect, real))
    ensures r.0.x == h.x && r.0.w == h.w && r.0.h == h.h
    ensures !Collide(b.rect, h) ==> r == (h, vy)
    ensures Collide(b.rect, h) ==> r.1 == 0.0
    ensures Collide(b.rect, h) && !FromBelow(h, last, b) && !FromAbove(h, last, b) ==> r.0 == h
    ensures Collide(b.rect, h) && !FromBelow(h, last, b) && FromAbove(h, last, b) ==> r.0.Bottom() == b.rect.Top()
    ensures Collide(b.rect, h) && FromBelow(h, last, b) ==>
      if FromAbove(Under(h, b), last, b) then r.0.Bottom() == b.rect.Top()
      else r.0 == Under(h, b)
  {
    if !Collide(b.rect, h) then (h, vy)
    else
      var h1 := if FromBelow(h, last, b) then Under(h, b) else h;
      var h2 := if FromAbove(h1, last, b) then h1.WithBottom(b.rect.Top()) else h1;
      (h2, 0.0)
  }

  /** When the approach is recognised, the vertical pass leaves the hitbox
      clear of the sprite: standing on its top, or just under its bottom (6
      pixels lower under a mover). */
  lemma SnapVerticalSeparates(h: FRect, vy: real, last: FRect, b: Body)
    requires h.w > 0.0 && h.h > 0.0 && b.rect.w > 0.0 && b.rect.h > 0.0
    requires Collide(b.rect, h) && (FromBelow(h, last, b) || FromAbove(h, last, b))
    ensures !Collide(b.rect, SnapVertical(h, vy, last, b).0)
    ensures var r := SnapVertical(h, vy, last, b).0;
      r.Bottom() == b.rect.Top() || r.Top() == b.rect.Bottom() + (if b.isMover then MOVER_PUSH else 0.0)
  {
    var r := SnapVertical(h, vy, last, b).0;
    CollideIsStrictOverlap(b.rect, r);
    var h1 := if FromBelow(h, last, b) then Under(h, b) else h;
    if FromAbove(h1, last, b) {
      assert r.Bottom() == b.rect.Top();
    } else {
      assert r.Top() >= b.rect.Bottom();
    }
  }

  /** The vertical pass over a whole group, in group order. */
  function ResolveVertical(h: FRect, vy: real, last: FRect, bodies: seq<Body>): (r: (FRect, real))
    ensures r.0.x == h.x && r.0.w == h.w && r.0.h == h.h
    ensures r.1 == vy || r.1 == 0.0
    decreases |bodies|
  {
    if bodies == [] then (h, vy)
    else
      var (h1, vy1) := ResolveVertical(h, vy, last, bodies[..|bodies| - 1]);
      SnapVertical(h1, vy1, last, bodies[|bodies| - 1])
  }

  /** The one-way pass for one semi-solid sprite: only a player whose bottom
      was above the sprite's top in the previous frame lands on it, and only
      a downward velocity is zeroed. */
  function SnapSemi(h: FRect, vy: real, last: FRect, b: Body): (r: (FRect, real))
    ensures r.0.x == h.x && r.0.w == h.w && r.0.h == h.h
    ensures r.0.y <= h.y
    ensures r.0 != h ==> Collide(b.rect, h) && FromAbove(h, last, b) && r.0.Bottom() == b.rect.Top()
    ensures r.1 == vy || (vy > 0.0 && r.1 == 0.0)
    ensures Collide(b.rect, h) && FromAbove(h, last, b) ==>
      r.0.Bottom() == b.rect.Top() && r.1 == (if vy > 0.0 then 0.0 else vy)
    ensures !(Collide(b.rect, h) && FromAbove(h, last, b)) ==> r == (h, vy)
  {
    if Collide(b.rect, h) && FromAbove(h, last, b) then
      (h.WithBottom(b.rect.Top()), if vy > 0.0 then 0.0 else vy)
    else (h, vy)
  }

  /** A player who crossed a one-way sprite's top while falling lands on it:
      flush on its top, clear of it, and no longer falling. */
  lemma SnapSemiLands(h: FRect, vy: real, last: FRect, b: Body)
    requires h.w > 0.0 && h.h > 0.0 && b.rect.w > 0.0 && b.rect.h > 0.0
    requires Collide(b.rect, h) && FromAbove(h, last, b) && vy > 0.0
    ensures var (r, v) := SnapSemi(h, vy, last, b);
      r.Bottom() == b.rect.Top() && !Collide(b.rect, r) && v == 0.0
  {
    var r := SnapSemi(h, vy, last, b).0;
    CollideIsStrictOverlap(b.rect, r);
  }

  /** The one-way pass over a whole group: it only ever lifts the player, and
      it never stops an upward or resting velocity. */
  function ResolveSemi(h: FRect, vy: real, last: FRect, bodies: seq<Body>): (r: (FRect, real))
    ensures r.0.x == h.x && r.0.w == h.w && r.0.h == h.h
    ensures r.0.y <= h.y
    ensures r.1 == vy || (vy > 0.0 && r.1 == 0.0)
    decreases |bodies|
  {
    if bodies == [] then (h, vy)
    else
      var (h1, vy1) := ResolveSemi(h, vy, last, bodies[..|bodies| - 1]);
      SnapSemi(h1, vy1, last, bodies[|bodies| - 1])
  }

  // ---------------------------------------------------------------- contacts

  /** A strip as wide as the hitbox just under it. */
  function DownProbe(h: FRect): FRect { FRect(h.x, h.Bottom(), h.w, PROBE) }

  /** Strips just beside the middle half of the hitbox's right and left sides. */
  function RightProbe(h: FRect): FRect { FRect(h.Right(), h.y + h.h / 4.0, PROBE, h.h / 2.0) }
  function LeftProbe(h: FRect): FRect { FRect(h.x - PROBE, h.y + h.h / 4.0, PROBE, h.h / 2.0) }

  /** A hitbox standing flush on a sprite is not inside it, yet the down
      probe meets it: landing is detected as floor contact. */
  lemma StandingIsGrounded(h: FRect, b: Body)
    requires h.w > 0.0 && h.h > 0.0 && b.rect.w > 0.0 && b.rect.h > 0.0
    requires h.Bottom() == b.rect.Top() && h.Left() < b.rect.Right() && b.rect.Left() < h.Right()
    ensures Collide(DownProbe(h), b.rect)
    ensures !Collide(b.rect, h)
  {
    CollideIsStrictOverlap(DownProbe(h), b.rect);
    CollideIsStrictOverlap(b.rect, h);
  }

  /** `collidelist`: the index of the first rectangle the probe meets, or -1. */
  function CollideList(probe: FRect, bodies: seq<Body>): (i: int)
    ensures -1 <= i < |bodies|
    ensures i == -1 <==> forall j :: 0 <= j < |bodies| ==> !Collide(probe, bodies[j].rect)
    ensures 0 <= i ==> Collide(probe, bodies[i].rect) && forall j :: 0 <= j < i ==> !Collide(probe, bodies[j].rect)
    decreases |bodies|
  {
    if bodies == [] then -1
    else if Collide(probe, bodies[0].rect) then 0
    else
      var k := CollideList(probe, bodies[1..]);
      if k == -1 then -1 else k + 1
  }

  ghost predicate Touches(probe: FRect, bodies: seq<Body>)
  {
    exists j :: 0 <= j < |bodies| && Collide(probe, bodies[j].rect)
  }

  /** The contact flags of `_check_contact`. The floor is touched when the
      down probe meets a solid sprite, or meets a one-way sprite while not
      moving up (`or` binds looser than `and`). Walls are solid sprites only. */
  function ComputeContacts(h: FRect, vy: real, solids: seq<Body>, semis: seq<Body>): (c: Contacts)
    ensures c.down <==> Touches(DownProbe(h), solids) || (Touches(DownProbe(h), semis) && vy >= 0.0)
    ensures c.right <==> Touches(RightProbe(h), solids)
    ensures c.left <==> Touches(LeftProbe(h), solids)
  {
    Contacts(
      CollideList(DownProbe(h), solids) >= 0 || (CollideList(DownProbe(h), semis) >= 0 && vy >= 0.0),
      CollideList(LeftProbe(h), solids) >= 0,
      CollideList(RightProbe(h), solids) >= 0)
  }

  /** A moving platform whose rectangle meets the probe. */
  predicate Carries(probe: FRect, b: Body)
  {
    b.isMover && Collide(b.rect, probe)
  }

  /** The index of the last sprite of `bodies` that carries the probe, or
      -1 when none does. */
  function LastCarrierIndex(probe: FRect, bodies: seq<Body>): (i: int)
    ensures -1 <= i < |bodies|
    ensures 0 <= i ==> Carries(probe, bodies[i])
    ensures forall j :: i < j < |bodies| ==> !Carries(probe, bodies[j])
    decreases |bodies|
  {
    if bodies == [] then -1
    else if Carries(probe, bodies[|bodies| - 1]) then |bodies| - 1
    else
      var n := |bodies| - 1;
      assert forall j :: 0 <= j < n ==> bodies[..n][j] == bodies[j];
      LastCarrierIndex(probe, bodies[..n])
  }

  /** The platform search of `_check_contact`: scan the sprites and keep the
      last moving one that meets the down probe, by its position in `bodies`. */
  method LastCarrier(probe: FRect, bodies: seq<Body>) returns (p: int)
    ensures p == LastCarrierIndex(probe, bodies)
  {
    p := -1;
    var k := 0;
    while k < |bodies|
      invariant 0 <= k <= |bodies|
      invariant p == LastCarrierIndex(probe, bodies[..k])
    {
      assert bodies[..k + 1][..k] == bodies[..k];
      if bodies[k].isMover && Collide(bodies[k].rect, probe) {
        p := k;
      }
      k := k + 1;
    }
    assert bodies[..k] == bodies;
  }
}
