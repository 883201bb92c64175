/** The swinging spike ball (`SpikeBall` in enemies.py), reduced to its angle
    and direction of travel. Its position on the circle is left out. */
module Enemies {
  import opened Geometry

  /** An `end_angle` of -1 asks for unbounded, full-circle rotation. */
  const FULL_CIRCLE: real := -1.0

  /** One tick of the swing: the angle advances by `direction * step`; on a
      bounded arc the direction turns back to -1 once the angle reaches the end
      angle and to 1 once it falls below the start angle, the second check
      winning when both hold. The angle itself is never clamped. */
  function Swing(angle: real, direction: int, startAngle: real, endAngle: real, circular: bool, step: real): (r: (real, int))
    ensures r.0 == angle + direction as real * step
    ensures circular ==> r.1 == direction
    ensures !circular && r.0 < startAngle ==> r.1 == 1
    ensures !circular && startAngle <= r.0 && endAngle <= r.0 ==> r.1 == -1
    ensures !circular && startAngle <= r.0 < endAngle ==> r.1 == direction
  {
    var a := angle + direction as real * step;
    var d := if !circular && a >= endAngle then -1 else direction;
    var d' := if !circular && a < startAngle then 1 else d;
    (a, d')
  }

  /** Where a bounded ball can be: within one step `s` of the arc, heading back
      towards the arc whenever it is outside it. */
  ghost predicate OnArc(angle: real, direction: int, startAngle: real, endAngle: real, s: real)
  {
    && (direction == 1 || direction == -1)
    && startAngle - s <= angle <= endAngle + s
    && (angle > endAngle ==> direction == -1)
    && (angle < startAngle ==> direction == 1)
  }

  /** A bounded ball stays within one step of its arc: the swing overshoots an
      end by at most one step and then turns back. */
  lemma SwingStaysNearArc(angle: real, direction: int, startAngle: real, endAngle: real, step: real, s: real)
    requires startAngle <= endAngle && 0.0 <= step <= s
    requires OnArc(angle, direction, startAngle, endAngle, s)
    ensures var (a, d) := Swing(angle, direction, startAngle, endAngle, false, step);
      OnArc(a, d, startAngle, endAngle, s)
  {
  }

  class SpikeBall {
    const center: Vec
    const radius: real
    const speed: real
    const startAngle: real
    const endAngle: real
    const circular: bool
    var angle: real
    var direction: int

    ghost predicate Valid()
      reads this
    {
      direction == 1 || direction == -1
    }

    constructor (center: Vec, radius: real, speed: real, startAngle: real, endAngle: real)
      ensures this.center == center && this.radius == radius && this.speed == speed
      ensures this.startAngle == startAngle && this.endAngle == endAngle
      ensures circular <==> endAngle == FULL_CIRCLE
      ensures angle == startAngle && direction == 1
      ensures Valid()
    {
      this.center := center;
      this.radius := radius;
      this.speed := speed;
      this.startAngle := startAngle;
      this.endAngle := endAngle;
      circular := endAngle == FULL_CIRCLE;
      angle := startAngle;
      direction := 1;
    }

    method Update(dt: real)
      requires Valid()
      modifies this`angle, this`direction
      ensures Valid()
      ensures (angle, direction) == Swing(old(angle), old(direction), startAngle, endAngle, circular, speed * dt)
    {
      var step := speed * dt;
      ghost var expected := Swing(angle, direction, startAngle, endAngle, circular, step);
      angle := angle + direction as real * step;
      assert angle == expected.0;
      if !circular {
        if angle >= endAngle {
          direction := -1;
        }
        if angle < startAngle {
          direction := 1;
        }
      }
      assert direction == expected.1;
    }
  }
}
