/** Frequency deadlines: the closed form of the jumping loop, and the same divider one cycle at a time. */
module ApuOscillator {
  import opened Numbers
  import opened ApuState

  // ---- closed forms ----

  function Reloaded(timer: nat, period: nat): nat { if timer == 0 then period else timer }

  /** How often a divider at `timer` fires within n cycles. */
  function Fires(timer: nat, period: nat, n: nat): nat
    requires period >= 1
  {
    var t := Reloaded(timer, period);
    if n < t then 0 else 1 + (n - t) / period
  }

  /** What the divider holds after n cycles. */
  function TimerAfter(timer: nat, period: nat, n: nat): nat
    requires period >= 1
  {
    var t := Reloaded(timer, period);
    if n == 0 then timer else if n < t then t - n else period - (n - t) % period
  }

  function NoiseShift(lfsr: bv16, narrow: bool): bv16 {
    var feedback := (lfsr ^ (lfsr >> 1)) & 1;
    var wide := (lfsr >> 1) | (feedback << 14);
    if narrow then (wide & !0x40) | (feedback << 6) else wide
  }

  function NoiseShifts(lfsr: bv16, narrow: bool, k: nat): bv16
    decreases k
  {
    if k == 0 then lfsr else NoiseShifts(NoiseShift(lfsr, narrow), narrow, k - 1)
  }

  function AdvanceSquare(ch: Channel, period: nat, n: nat): Channel
    requires period >= 1
  {
    if !ch.enabled then ch else
    var k := Fires(ch.timer, period, n);
    ch.(timer := TimerAfter(ch.timer, period, n),
        duty := (ch.duty + k) % 8,
        forceZero := if k > 0 then false else ch.forceZero)
  }

  function AdvanceWave(ch: Channel, wave: WaveRam, period: nat, n: nat): Channel
    requires period >= 1
  {
    if !ch.enabled then ch else
    var k := Fires(ch.timer, period, n);
    var position := (ch.wavePosition + k) % 32;
    ch.(timer := TimerAfter(ch.timer, period, n),
        wavePosition := position,
        waveSample := if k > 0 then wave[position / 2] else ch.waveSample)
  }

  predicate Frozen(nr43: u8) { nr43 / 16 >= 14 }

  predicate Narrow(nr43: u8) { TestBit(nr43, 8) }

  function AdvanceNoise(ch: Channel, nr43: u8, n: nat): Channel {
    if !ch.enabled || Frozen(nr43) then ch else
    var period := NoisePeriod(nr43);
    ch.(timer := TimerAfter(ch.timer, period, n),
        lfsr := NoiseShifts(ch.lfsr, Narrow(nr43), Fires(ch.timer, period, n)))
  }

  // ---- the jumping loop consumes deadlines one at a time ----

  lemma FireStep(timer: nat, period: nat, n: nat)
    requires period >= 1
    requires Reloaded(timer, period) <= n
    ensures Fires(timer, period, n) == 1 + Fires(period, period, n - Reloaded(timer, period))
    ensures TimerAfter(timer, period, n) == TimerAfter(period, period, n - Reloaded(timer, period))
  {
    var m := n - Reloaded(timer, period);
    if m >= period {
      DivStep(m, period);
    } else {
      DivUnique(period, 0, m);
    }
  }

  /** A deadline within reach: consume it and go on from a reloaded divider. */
  lemma SquareFire(ch: Channel, period: nat, n: nat)
    requires period >= 1 && ch.enabled && Reloaded(ch.timer, period) <= n
    ensures AdvanceSquare(ch, period, n)
         == AdvanceSquare(ch.(timer := period, duty := (ch.duty + 1) % 8, forceZero := false), period,
                          n - Reloaded(ch.timer, period))
  {
    FireStep(ch.timer, period, n);
    DivSplit(ch.duty + 1, Fires(period, period, n - Reloaded(ch.timer, period)), 8);
    hide Fires, TimerAfter;
  }

  lemma WaveFire(ch: Channel, wave: WaveRam, period: nat, n: nat)
    requires period >= 1 && ch.enabled && Reloaded(ch.timer, period) <= n
    ensures AdvanceWave(ch, wave, period, n)
         == AdvanceWave(ch.(timer := period, wavePosition := (ch.wavePosition + 1) % 32,
                            waveSample := wave[(ch.wavePosition + 1) % 32 / 2]),
                        wave, period, n - Reloaded(ch.timer, period))
  {
    FireStep(ch.timer, period, n);
    DivSplit(ch.wavePosition + 1, Fires(period, period, n - Reloaded(ch.timer, period)), 32);
    hide Fires, TimerAfter;
  }

  lemma NoiseFire(ch: Channel, nr43: u8, n: nat)
    requires ch.enabled && !Frozen(nr43) && Reloaded(ch.timer, NoisePeriod(nr43)) <= n
    ensures AdvanceNoise(ch, nr43, n)
         == AdvanceNoise(ch.(timer := NoisePeriod(nr43), lfsr := NoiseShift(ch.lfsr, Narrow(nr43))), nr43,
                         n - Reloaded(ch.timer, NoisePeriod(nr43)))
  {
    FireStep(ch.timer, NoisePeriod(nr43), n);
    hide Fires, TimerAfter, NoiseShift, NoisePeriod;
  }

  lemma OffStays(ch: Channel, wave: WaveRam, period: nat, nr43: u8, n: nat)
    requires period >= 1
    ensures !ch.enabled ==> AdvanceSquare(ch, period, n) == ch == AdvanceWave(ch, wave, period, n)
    ensures !ch.enabled || Frozen(nr43) ==> AdvanceNoise(ch, nr43, n) == ch
  {
  }

  /** No deadline within reach: the divider coasts. */
  lemma Coast(ch: Channel, wave: WaveRam, period: nat, n: nat)
    requires period >= 1 && ch.duty < 8 && ch.wavePosition < 32 && ch.enabled
    requires n < Reloaded(ch.timer, period)
    ensures AdvanceSquare(ch, period, n) == ch.(timer := if n == 0 then ch.timer else Reloaded(ch.timer, period) - n)
    ensures AdvanceWave(ch, wave, period, n) == AdvanceSquare(ch, period, n)
  {
  }

  /** Having coasted, nothing is left to do. */
  lemma Coasted(ch: Channel, wave: WaveRam, period: nat, n: nat)
    requires period >= 1 && ch.duty < 8 && ch.wavePosition < 32 && ch.enabled
    requires 0 < n < Reloaded(ch.timer, period)
    ensures var rest := ch.(timer := Reloaded(ch.timer, period) - n);
            && AdvanceSquare(ch, period, n) == AdvanceSquare(rest, period, 0)
            && AdvanceWave(ch, wave, period, n) == AdvanceWave(rest, wave, period, 0)
  {
    Coast(ch, wave, period, n);
    Coast(ch.(timer := Reloaded(ch.timer, period) - n), wave, period, 0);
    hide AdvanceSquare, AdvanceWave;
  }

  lemma NoiseCoast(ch: Channel, nr43: u8, n: nat)
    requires ch.enabled && !Frozen(nr43) && n < Reloaded(ch.timer, NoisePeriod(nr43))
    ensures AdvanceNoise(ch, nr43, n)
         == ch.(timer := if n == 0 then ch.timer else Reloaded(ch.timer, NoisePeriod(nr43)) - n)
  {
    hide NoisePeriod, NoiseShift;
  }

  /** Splitting the elapsed time anywhere changes neither the firings nor the divider. */
  lemma FiresSplit(timer: nat, period: nat, a: nat, b: nat)
    requires period >= 1
    ensures Fires(timer, period, a + b)
         == Fires(timer, period, a) + Fires(TimerAfter(timer, period, a), period, b)
    ensures TimerAfter(timer, period, a + b) == TimerAfter(TimerAfter(timer, period, a), period, b)
  {
    var t := Reloaded(timer, period);
    if a >= t && a > 0 {
      var x := a - t;
      DivSplit(x, b, period);
      var left := period - x % period;
      assert TimerAfter(timer, period, a) == left;
      if b >= left {
        DivStep(x % period + b, period);
      } else {
        DivUnique(period, 0, x % period + b);
      }
      assert a + b - t == x + b;
    }
  }

  lemma {:induction false} NoiseShiftsAdd(lfsr: bv16, narrow: bool, j: nat, k: nat)
    ensures NoiseShifts(lfsr, narrow, j + k) == NoiseShifts(NoiseShifts(lfsr, narrow, j), narrow, k)
    decreases j
  {
    if j > 0 {
      NoiseShiftsAdd(NoiseShift(lfsr, narrow), narrow, j - 1, k);
      assert j + k - 1 == (j - 1) + k;
    }
  }

  lemma SquareSplit(ch: Channel, period: nat, a: nat, b: nat)
    requires period >= 1
    ensures AdvanceSquare(ch, period, a + b) == AdvanceSquare(AdvanceSquare(ch, period, a), period, b)
  {
    FiresSplit(ch.timer, period, a, b);
    hide Fires, TimerAfter;
    DivSplit(ch.duty + Fires(ch.timer, period, a), Fires(TimerAfter(ch.timer, period, a), period, b), 8);
  }

  lemma WaveSplit(ch: Channel, wave: WaveRam, period: nat, a: nat, b: nat)
    requires period >= 1 && ch.wavePosition < 32
    ensures AdvanceWave(ch, wave, period, a + b) == AdvanceWave(AdvanceWave(ch, wave, period, a), wave, period, b)
  {
    FiresSplit(ch.timer, period, a, b);
    hide Fires, TimerAfter;
    DivSplit(ch.wavePosition + Fires(ch.timer, period, a), Fires(TimerAfter(ch.timer, period, a), period, b), 32);
  }

  lemma NoiseSplit(ch: Channel, nr43: u8, a: nat, b: nat)
    ensures AdvanceNoise(ch, nr43, a + b) == AdvanceNoise(AdvanceNoise(ch, nr43, a), nr43, b)
  {
    var period := NoisePeriod(nr43);
    FiresSplit(ch.timer, period, a, b);
    NoiseShiftsAdd(ch.lfsr, Narrow(nr43), Fires(ch.timer, period, a),
                   Fires(TimerAfter(ch.timer, period, a), period, b));
  }

  // ---- one cycle at a time ----

  /** A divider that counts down by one and reloads when it runs out. */
  function CountDown(timer: nat, period: nat): (bool, nat)
    requires period >= 1
  {
    var t := Reloaded(timer, period);
    if t == 1 then (true, period) else (false, t - 1)
  }

  function CycleSquare(ch: Channel, period: nat): Channel
    requires period >= 1
  {
    if !ch.enabled then ch else
    var (fired, timer) := CountDown(ch.timer, period);
    if !fired then ch.(timer := timer)
    else ch.(timer := timer, duty := (ch.duty + 1) % 8, forceZero := false)
  }

  function CycleWave(ch: Channel, wave: WaveRam, period: nat): Channel
    requires period >= 1
  {
    if !ch.enabled then ch else
    var (fired, timer) := CountDown(ch.timer, period);
    if !fired then ch.(timer := timer)
    else
      var position := (ch.wavePosition + 1) % 32;
      ch.(timer := timer, wavePosition := position, waveSample := wave[position / 2])
  }

  function CycleNoise(ch: Channel, nr43: u8): Channel {
    if !ch.enabled || Frozen(nr43) then ch else
    var (fired, timer) := CountDown(ch.timer, NoisePeriod(nr43));
    if !fired then ch.(timer := timer)
    else ch.(timer := timer, lfsr := NoiseShift(ch.lfsr, Narrow(nr43)))
  }

  lemma FiresOnce(timer: nat, period: nat)
    requires period >= 1
    ensures CountDown(timer, period) == (Fires(timer, period, 1) > 0, TimerAfter(timer, period, 1))
    ensures Fires(timer, period, 1) <= 1
  {
    DivUnique(period, 0, 0);
  }

  /** The closed forms at one cycle are the countdown. */
  lemma OneCycle(ch: Channel, wave: WaveRam, period: nat, nr43: u8)
    requires period >= 1 && ch.duty < 8 && ch.wavePosition < 32
    ensures AdvanceSquare(ch, period, 1) == CycleSquare(ch, period)
    ensures AdvanceWave(ch, wave, period, 1) == CycleWave(ch, wave, period)
    ensures AdvanceNoise(ch, nr43, 1) == CycleNoise(ch, nr43)
  {
    FiresOnce(ch.timer, period);
    FiresOnce(ch.timer, NoisePeriod(nr43));
    assert NoiseShifts(ch.lfsr, Narrow(nr43), 1) == NoiseShift(ch.lfsr, Narrow(nr43));
  }

  // ---- the noise register ----

  lemma NoiseShiftBounds(lfsr: bv16, narrow: bool)
    requires lfsr < 0x8000
    ensures NoiseShift(lfsr, narrow) < 0x8000
    ensures !narrow && lfsr != 0 ==> NoiseShift(lfsr, narrow) != 0
    ensures narrow && lfsr & 0x7F != 0 ==> NoiseShift(lfsr, narrow) & 0x7F != 0
  {
  }

  /** The wide step never maps two 15-bit registers to one. */
  lemma WideShiftInjective(x: bv16, y: bv16)
    requires x < 0x8000 && y < 0x8000
    requires NoiseShift(x, false) == NoiseShift(y, false)
    ensures x == y
  {
  }

  /** As long as the width stays, the noise register stays within 15 bits and does not die: not in wide mode, and not
      in narrow mode while one of its low seven bits is set. */
  lemma {:induction false} NoiseNeverSticks(lfsr: bv16, narrow: bool, k: nat)
    requires lfsr < 0x8000
    ensures NoiseShifts(lfsr, narrow, k) < 0x8000
    ensures !narrow && lfsr != 0 ==> NoiseShifts(lfsr, narrow, k) != 0
    ensures narrow && lfsr & 0x7F != 0 ==> NoiseShifts(lfsr, narrow, k) & 0x7F != 0
    decreases k
  {
    if k > 0 {
      NoiseShiftBounds(lfsr, narrow);
      NoiseNeverSticks(NoiseShift(lfsr, narrow), narrow, k - 1);
    }
  }

  /** Eight narrow shifts clear a register whose low seven bits are zero. */
  lemma NarrowDies(lfsr: bv16)
    requires lfsr < 0x8000 && lfsr & 0x7F == 0
    ensures NoiseShifts(lfsr, true, 8) == 0
  {
    var l1 := NoiseShift(lfsr, true);
    var l2 := NoiseShift(l1, true);
    var l3 := NoiseShift(l2, true);
    var l4 := NoiseShift(l3, true);
    NoiseShiftsAdd(lfsr, true, 4, 4);
    FourShifts(lfsr, true);
    FourShifts(l4, true);
  }

  lemma FourShifts(lfsr: bv16, narrow: bool)
    ensures NoiseShifts(lfsr, narrow, 4)
         == NoiseShift(NoiseShift(NoiseShift(NoiseShift(lfsr, narrow), narrow), narrow), narrow)
  {
    hide NoiseShift;
    NoiseShiftsAdd(lfsr, narrow, 2, 2);
    TwoShifts(lfsr, narrow);
    TwoShifts(NoiseShift(NoiseShift(lfsr, narrow), narrow), narrow);
  }

  lemma TwoShifts(lfsr: bv16, narrow: bool)
    ensures NoiseShifts(lfsr, narrow, 2) == NoiseShift(NoiseShift(lfsr, narrow), narrow)
  {
    hide NoiseShift;
    assert NoiseShifts(NoiseShift(lfsr, narrow), narrow, 1) == NoiseShift(NoiseShift(lfsr, narrow), narrow);
  }

  /** A dead register stays dead, whatever is written to NR43. */
  lemma {:induction false} DeadStaysDead(narrow: bool, k: nat)
    ensures NoiseShifts(0, narrow, k) == 0
  {
    if k > 0 {
      DeadStaysDead(narrow, k - 1);
    }
  }

  /** Exactly when a register dies: in wide mode never, unless it is dead; in narrow mode when its low seven bits are
      zero, and then within eight shifts. */
  lemma NoiseLocksUp(lfsr: bv16, narrow: bool)
    requires lfsr < 0x8000
    ensures (exists k: nat :: NoiseShifts(lfsr, narrow, k) == 0) <==> if narrow then lfsr & 0x7F == 0 else lfsr == 0
    ensures (if narrow then lfsr & 0x7F == 0 else lfsr == 0) ==>
              forall k: nat :: k >= 8 ==> NoiseShifts(lfsr, narrow, k) == 0
  {
    hide NoiseShift;
    forall k: nat | NoiseShifts(lfsr, narrow, k) == 0 ensures if narrow then lfsr & 0x7F == 0 else lfsr == 0 {
      NoiseNeverSticks(lfsr, narrow, k);
    }
    if if narrow then lfsr & 0x7F == 0 else lfsr == 0 {
      if narrow {
        NarrowDies(lfsr);
      } else {
        DeadStaysDead(false, 8);
      }
      forall k: nat | k >= 8 ensures NoiseShifts(lfsr, narrow, k) == 0 {
        NoiseShiftsAdd(lfsr, narrow, 8, k - 8);
        DeadStaysDead(narrow, k - 8);
      }
    }
  }

  /** So a change of width can kill a register that a trigger seeded: fifteen wide shifts leave only bit 14, and the
      narrow mode then dies. */
  lemma WidthChangeCanKill()
    ensures NoiseShifts(0x7FFF, false, 15) == 0x4000
    ensures NoiseShifts(NoiseShifts(0x7FFF, false, 15), true, 8) == 0
  {
    NoiseShiftsAdd(0x7FFF, false, 4, 11);
    NoiseShiftsAdd(NoiseShifts(0x7FFF, false, 4), false, 4, 7);
    NoiseShiftsAdd(NoiseShifts(0x7FFF, false, 8), false, 4, 3);
    FourShifts(0x7FFF, false);
    FourShifts(NoiseShifts(0x7FFF, false, 4), false);
    FourShifts(NoiseShifts(0x7FFF, false, 8), false);
    assert NoiseShifts(0x7FFF, false, 12) == 0x0007;
    TwoShifts(0x0007, false);
    NoiseShiftsAdd(0x0007, false, 2, 1);
    assert NoiseShifts(0x0007, false, 3) == 0x4000;
    NarrowDies(0x4000);
  }

  /** The programmed noise period is divisor * 2^shift exactly when that product fits in 16 bits. */
  lemma NoisePeriodExact(nr43: u8)
    ensures var product := NOISE_DIVISORS[nr43 % 8] * Pow2(nr43 / 16);
            NoisePeriod(nr43) == product <==> product < 0x1_0000
  {
    var product := NOISE_DIVISORS[nr43 % 8] * Pow2(nr43 / 16);
    assert product >= 8 by {
      assert NOISE_DIVISORS[nr43 % 8] >= 8;
      assert product >= 8 * Pow2(nr43 / 16);
    }
    if product < 0x1_0000 {
      DivUnique(0x1_0000, 0, product);
    }
  }

  /** At shift 13 the last divisor shifts out of 16 bits altogether and the smallest period is used. */
  lemma NoisePeriodLosesBits()
    ensures NoisePeriod(0xD7) == 8 < NOISE_DIVISORS[7] * Pow2(13)
  {
    assert Pow2(4) == 16;
    assert Pow2(8) == 256;
    assert Pow2(12) == 4096;
    assert Pow2(13) == 8192;
  }
}
