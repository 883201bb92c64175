/** The heads-up display (`UI` and `Heart` in ui.py): one animated heart per
    life in the top-left corner, and the coin count, shown for one second
    after it changes. Drawing is represented by what would be drawn. */
module Ui {
  import opened Geometry
  import opened Timers
  import Settings

  /** A heart's top-left corner on the screen, in whole pixels. */
  datatype Spot = Spot(x: int, y: int)

  const MARGIN: int := 10
  const HEALTH_PADDING: int := 10
  /** How long the coin count stays on screen after a change, in milliseconds. */
  const COIN_DURATION: int := 1000

  /** Where heart number `i` goes when each heart image is `width` pixels wide. */
  function HeartSpot(i: int, width: int): Spot
  {
    Spot(MARGIN + i * (width + HEALTH_PADDING), MARGIN)
  }

  /** Consecutive hearts sit one heart width plus the padding apart, on one row. */
  lemma HeartSpacing(i: int, width: int)
    ensures HeartSpot(i + 1, width).x - HeartSpot(i, width).x == width + HEALTH_PADDING
    ensures HeartSpot(i + 1, width).y == HeartSpot(i, width).y
  {
  }

  /** What `_show_text` draws: nothing, or the coin amount. */
  datatype CoinText = Hidden | Shown(amount: int)

  class Heart {
    const spot: Spot
    const frameCount: nat
    var frame: real
    /** Index of the frame currently shown. */
    var image: nat
    /** Whether the heart's animation is playing. */
    var active: bool
    /** Whether the heart still belongs to the interface's group. */
    var alive: bool

    ghost predicate Valid()
      reads this
    {
      frameCount > 0 && 0.0 <= frame && image < frameCount
    }

    constructor (spot: Spot, frameCount: nat)
      requires frameCount > 0
      ensures this.spot == spot && this.frameCount == frameCount
      ensures frame == 0.0 && image == 0 && !active && alive
      ensures Valid()
    {
      this.spot := spot;
      this.frameCount := frameCount;
      frame := 0.0;
      image := 0;
      active := false;
      alive := true;
    }

    /** `_animate`: advance the frame; show it while frames remain, otherwise
        stop the animation and rewind it. */
    method Animate(dt: real)
      requires Valid() && dt >= 0.0
      modifies this`frame, this`image, this`active
      ensures Valid()
      ensures var advanced := old(frame) + Settings.ANIMATION_SPEED as real * dt;
        if advanced < frameCount as real then
          frame == advanced && image == Trunc(advanced) && active == old(active)
        else
          frame == 0.0 && image == old(image) && !active
    {
      frame := frame + Settings.ANIMATION_SPEED as real * dt;
      if frame < frameCount as real {
        image := Trunc(frame);
      } else {
        active := false;
        frame := 0.0;
      }
    }

    /** `update`: animate while active. An inactive heart starts its
        animation when `wake` holds; `wake` stands for the one-in-501 draw
        of `update`. */
    method Update(dt: real, wake: bool)
      requires Valid() && dt >= 0.0
      modifies this`frame, this`image, this`active
      ensures Valid()
      ensures !old(active) ==> frame == old(frame) && image == old(image) && active == wake
      ensures old(active) ==> var advanced := old(frame) + Settings.ANIMATION_SPEED as real * dt;
        if advanced < frameCount as real then frame == advanced && image == Trunc(advanced) && active
        else frame == 0.0 && image == old(image) && !active
    {
      if active {
        Animate(dt);
      } else if wake {
        active := true;
      }
    }
  }

  class UI {
    /** Width of a heart image, in pixels. */
    const heartWidth: int
    const heartFrameCount: nat
    /** The hearts in the interface's sprite group, in creation order. */
    var hearts: seq<Heart>
    var coinAmount: int
    const coinDuration: Timer

    ghost predicate Valid()
      reads this, coinDuration
    {
      heartFrameCount > 0 && coinDuration.duration == COIN_DURATION && !coinDuration.loops
      && !coinDuration.hasCallback && coinDuration.Valid()
    }

    constructor (heartWidth: int, heartFrameCount: nat)
      requires heartFrameCount > 0
      ensures this.heartWidth == heartWidth && this.heartFrameCount == heartFrameCount
      ensures hearts == [] && coinAmount == 0
      ensures fresh(coinDuration) && coinDuration.State() == STOPPED
      ensures Valid()
    {
      this.heartWidth := heartWidth;
      this.heartFrameCount := heartFrameCount;
      hearts := [];
      coinAmount := 0;
      coinDuration := new Timer(COIN_DURATION, false, false);
    }

    /** `create_hearts(count)`: kill every heart, then create `count` new ones
        (none when `count` is not positive) side by side from the left. */
    method CreateHearts(count: int)
      requires Valid()
      modifies this`hearts, (set h | h in hearts)`alive
      ensures Valid()
      ensures forall h :: h in old(hearts) ==> !h.alive
      ensures |hearts| == if count > 0 then count else 0
      ensures forall i :: 0 <= i < |hearts| ==>
        && fresh(hearts[i]) && hearts[i].alive && !hearts[i].active && hearts[i].Valid()
        && hearts[i].spot == HeartSpot(i, heartWidth) && hearts[i].frameCount == heartFrameCount
    {
      var old_ := hearts;
      var k := 0;
      while k < |old_|
        invariant 0 <= k <= |old_|
        invariant forall j :: 0 <= j < k ==> !old_[j].alive
      {
        old_[k].alive := false;
        k := k + 1;
      }
      var made: seq<Heart> := [];
      var n := 0;
      while n < count
        invariant 0 <= n && (count > 0 ==> n <= count) && (count <= 0 ==> n == 0) && |made| == n
        invariant forall j :: 0 <= j < |old_| ==> !old_[j].alive
        invariant forall i :: 0 <= i < n ==>
          && fresh(made[i]) && made[i].alive && !made[i].active && made[i].Valid()
          && made[i].spot == HeartSpot(i, heartWidth) && made[i].frameCount == heartFrameCount
      {
        var heart := new Heart(HeartSpot(n, heartWidth), heartFrameCount);
        made := made + [heart];
        n := n + 1;
      }
      hearts := made;
    }

    /** `update_coins(amount)`: remember the amount and show it from `now`. */
    method UpdateCoins(amount: int, now: int)
      requires Valid()
      modifies this`coinAmount, coinDuration
      ensures Valid()
      ensures coinAmount == amount
      ensures coinDuration.State() == TimerState(now, true)
    {
      coinAmount := amount;
      coinDuration.Start(now);
    }

    /** `_show_text`: the coin amount is drawn exactly while the coin timer runs. */
    method ShowText() returns (text: CoinText)
      ensures text.Shown? <==> coinDuration.active
      ensures text.Shown? ==> text.amount == coinAmount
    {
      if coinDuration.active {
        text := Shown(coinAmount);
      } else {
        text := Hidden;
      }
    }
  }
}
