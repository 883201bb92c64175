/** The player's persistent numbers (`Data` in data.py): coins, health and
    level progress. The user interface it notifies is represented by the log
    of calls it receives, in order. */
module GameData {

  /** A call from the data to the user interface. */
  datatype UiCall = CreateHearts(count: int) | UpdateCoins(amount: int)

  const START_HEALTH: int := 5

  /** Coins are exchanged for a life once they reach this amount. */
  const COINS_PER_LIFE: int := 100

  /** What an assignment of `value` to `coins` stores: the coins kept and the
      lives gained. One hundred is removed at most once per assignment. */
  datatype Exchange = Exchange(coins: int, lives: int)

  function CoinExchange(value: int): (e: Exchange)
    ensures e.coins + COINS_PER_LIFE * e.lives == value
    ensures e.lives == 1 <==> value >= COINS_PER_LIFE
    ensures e.lives == 0 <==> value < COINS_PER_LIFE
    ensures 0 <= value < 2 * COINS_PER_LIFE ==> 0 <= e.coins < COINS_PER_LIFE
  {
    if value >= COINS_PER_LIFE then Exchange(value - COINS_PER_LIFE, 1) else Exchange(value, 0)
  }

  class Data {
    var coins: int
    var health: int
    var level: int
    var maxLevel: int
    /** Every call made to the user interface so far. */
    var uiLog: seq<UiCall>

    constructor ()
      ensures coins == 0 && health == START_HEALTH && level == 0 && maxLevel == 0
      ensures uiLog == [CreateHearts(START_HEALTH)]
    {
      coins := 0;
      health := START_HEALTH;
      level := 0;
      maxLevel := 0;
      uiLog := [CreateHearts(START_HEALTH)];
    }

    /** The `health` setter: store the value and redraw that many hearts. */
    method SetHealth(value: int)
      modifies this`health, this`uiLog
      ensures health == value
      ensures uiLog == old(uiLog) + [CreateHearts(value)]
    {
      health := value;
      uiLog := uiLog + [CreateHearts(value)];
    }

    /** The `coins` setter: store the value, exchanging one hundred coins for
        a life (without redrawing the hearts), then show the new amount. */
    method SetCoins(value: int)
      modifies this`coins, this`health, this`uiLog
      ensures coins == CoinExchange(value).coins
      ensures health == old(health) + CoinExchange(value).lives
      ensures uiLog == old(uiLog) + [UpdateCoins(coins)]
    {
      coins := value;
      if coins >= COINS_PER_LIFE {
        coins := coins - COINS_PER_LIFE;
        health := health + 1;
      }
      uiLog := uiLog + [UpdateCoins(coins)];
    }
  }
}
