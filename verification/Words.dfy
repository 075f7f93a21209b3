/** The 32-bit tick type (configUSE_16_BIT_TICKS is 0) next to an unbounded clock.

    An unbounded time t is split into Epoch(t), the number of wraps of the tick counter, and
    Low(t), the value the 32-bit counter shows at that time. */
module Words {

  const MAX_DELAY: nat := 0xFFFF_FFFF

  type Tick = t: nat | t < 0x1_0000_0000

  function Add(a: Tick, b: Tick): Tick {
    (a + b) % 0x1_0000_0000
  }

  function Sub(a: Tick, b: Tick): Tick {
    (a + 0x1_0000_0000 - b) % 0x1_0000_0000
  }

  function Epoch(t: nat): nat {
    t / 0x1_0000_0000
  }

  function Low(t: nat): Tick {
    t % 0x1_0000_0000
  }

  function At(epoch: nat, low: nat): nat {
    epoch * 0x1_0000_0000 + low
  }

  /** A time is its epoch and its low word, and that pair is unique. */
  lemma EpochLow(epoch: nat, low: Tick)
    ensures Epoch(At(epoch, low)) == epoch && Low(At(epoch, low)) == low
  {
  }

  lemma Split(t: nat)
    ensures t == At(Epoch(t), Low(t))
  {
  }

  /** The 32-bit sum and difference, by cases. */
  lemma AddIs(a: Tick, b: Tick)
    ensures Add(a, b) == if a + b < 0x1_0000_0000 then a + b else a + b - 0x1_0000_0000
  {
  }

  lemma SubIs(a: Tick, b: Tick)
    ensures Sub(a, b) == if a >= b then a - b else a + 0x1_0000_0000 - b
  {
  }

  /** Adding a 32-bit delay to a time moves it by less than one whole wrap, and the 32-bit sum is
      below the old counter value exactly when the wrap point was crossed. */
  lemma AddCrossesEpoch(t: nat, n: Tick)
    ensures Add(Low(t), n) == Low(t + n)
    ensures Epoch(t + n) == if Add(Low(t), n) < Low(t) then Epoch(t) + 1 else Epoch(t)
  {
    hide Add, Low, Epoch;
    AddIs(Low(t), n);
    Split(t);
    if Low(t) + n < 0x1_0000_0000 {
      EpochLow(Epoch(t), Low(t) + n);
    } else {
      EpochLow(Epoch(t) + 1, Low(t) + n - 0x1_0000_0000);
    }
  }

  /** The 32-bit difference of two counter values is the elapsed time modulo one wrap. */
  lemma SubIsElapsed(from: nat, to: nat)
    requires from <= to
    ensures Sub(Low(to), Low(from)) == Low(to - from)
  {
    hide Sub, Low, Epoch;
    SubIs(Low(to), Low(from));
    Split(from);
    Split(to);
    var wraps := Epoch(to) - Epoch(from);
    if Low(from) <= Low(to) {
      EpochLow(wraps, Low(to) - Low(from));
    } else {
      EpochLow(wraps - 1, 0x1_0000_0000 + Low(to) - Low(from));
    }
  }
}
