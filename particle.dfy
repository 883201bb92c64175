/** A one-shot particle effect (`Particle` in particle.py): centred on where
    it was spawned, drawn in front of everything, and removed from its groups
    once its animation has played. */
module Particles {
  import opened Geometry
  import Settings

  class Particle {
    var rect: FRect
    const posZ: int
    /** Number of animation frames, and the rate at which they advance. */
    const frameCount: nat
    const animationSpeed: real
    var frame: real
    /** Index of the frame currently shown. */
    var image: nat
    /** Whether the particle still belongs to its groups. */
    var alive: bool

    ghost predicate Valid()
      reads this
    {
      && frameCount > 0 && animationSpeed >= 0.0
      && 0.0 <= frame
      && image < frameCount
    }

    /** `frameSize` is the size of the first frame image, which the sprite's
        rectangle takes. No speed is passed on, so the animation runs at the
        standard rate. */
    constructor (pos: Vec, frameSize: Vec, frameCount: nat)
      requires frameCount > 0
      ensures rect.Center() == pos && rect.w == frameSize.x && rect.h == frameSize.y
      ensures posZ == Settings.Depth(Settings.Fg)
      ensures this.frameCount == frameCount && animationSpeed == Settings.ANIMATION_SPEED as real
      ensures frame == 0.0 && image == 0 && alive
      ensures Valid()
    {
      var r := FRect(pos.x, pos.y, frameSize.x, frameSize.y);
      rect := r.WithCenter(pos);
      posZ := Settings.Depth(Settings.Fg);
      this.frameCount := frameCount;
      animationSpeed := Settings.ANIMATION_SPEED as real;
      frame := 0.0;
      image := 0;
      alive := true;
    }

    /** Advance the animation by `dt` seconds: show the frame reached while
        there is one, and kill the particle once the frames are used up. The
        frame counter is never wrapped. */
    method Animate(dt: real)
      requires Valid() && dt >= 0.0
      modifies this`frame, this`image, this`alive
      ensures Valid()
      ensures frame == old(frame) + animationSpeed * dt && frame >= old(frame)
      ensures frame < frameCount as real ==> image == Trunc(frame) && alive == old(alive)
      ensures frame >= frameCount as real ==> image == old(image) && !alive
    {
      frame := frame + animationSpeed * dt;
      if frame < frameCount as real {
        image := Trunc(frame);
      } else {
        alive := false;
      }
    }
  }
}
